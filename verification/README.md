# time_left: per-project budget chart, in Dafny

`time_left.py` fetches this month's time-tracking summary, keeps the projects
that have a budget in the configuration, and publishes a stacked horizontal
bar chart of used against free hours per project. This project models the two
pure stages of that script and proves their properties:

- **the filter/transform loop of `main`** (`transform.dfy`, `summary.dfy`,
  `text.dfy`): each summary entry becomes a chart datum `{project, time,
  budget}` exactly when its project name is non-empty and its lower-cased name
  is a key of the budget table; order is kept; `time` is the entry's aggregate
  milliseconds in hours. The clamped item sum `total_time` is modelled on its
  own (`TotalTime`) and proved not to influence the chart data, because the
  script computes it and never uses it.
- **the chart stage `graph_charts`** (`chart.dfy`): per datum, the proportion
  used, the free fraction `max(0, 1 - proportion)`, the two tooltips, and one
  annotation over budget (proportion at least 1) or two under budget; then
  the two bars and the layout.
- **the pipeline** (`report.dfy`): the chart is drawn and published under the
  name `timeleft` if and only if some entry matched.

Modules follow the script: `Text` (the `str.lower` fold), `Summary` (the
fetched records, hours conversion and clamped sum), `Transform` (the `main`
loop), `Chart` (`graph_charts`), `Report` (the `main` pipeline), plus
`Wrappers` for the `Option` type.

Milliseconds are `int`, hours are exact `real`. Budgets are a
`map<string, real>`; the chart stage requires every budget to be positive,
because the division `time_used / budget` is unguarded. Tooltip and annotation
texts are a message kind plus the number the script would print with one
decimal place. The project title is an `Option<string>`: Python's `if name`
rejects both `None` and the empty string.

The hours charted are the aggregate `time` field (time_left.py:28, 36); the
clamped item sum `total_time` (time_left.py:29) is computed and never used
(`Transform.ChartDataIgnoresItems`, `Transform.AggregateNotItemSum`).

## Model

| member | source | states |
|---|---|---|
| Text.LowerChar | time_left.py:33 | the folded character is never an upper-case ASCII letter; other characters are kept; `A`..`Z` move to `a`..`z` |
| Text.Lower | time_left.py:33 | `name.lower()` keeps the length and folds every character independently |
| Text.LowerIdempotent | time_left.py:33-34 | lower-casing an already lower-cased name changes nothing, so a title that is already lower case matches the budget key spelled the same way |
| Summary.MsToHours | time_left.py:28 | `ms / 1000 / 60 / 60` is exactly `ms / 3600000` hours, non-negative exactly for non-negative `ms`, and one hour is 3,600,000 ms |
| Summary.Clamp | time_left.py:29 | `max(t, 0)` is at least `t`, equals `t` when `t` is non-negative and 0 when `t` is negative |
| Summary.ClampedSum | time_left.py:29 | the clamped item sum is a natural number and bounds every clamped item |
| Summary.TotalTime | time_left.py:29 | `total_time` is non-negative and equals the sum of the non-negative item times over 3,600,000 |
| Summary.ClampedSumIsSumOfNonNegatives | time_left.py:29 | summing `max(t, 0)` equals summing only the non-negative item times |
| Summary.ClampedSumIgnoresNegative | time_left.py:29 | replacing any negative item time by 0 leaves the clamped sum unchanged |
| Summary.TotalTimeExample | time_left.py:29 | items `[3600000, -500, 7200000]` give 3.0 hours |
| Transform.Matches | time_left.py:33 | the filter condition itself: a title that is present, non-empty and whose lower-cased form is a budget key; no contract of its own, its meaning is fixed by ChartDataIsMatchingSubsequence and MatchesIgnoresCase |
| Transform.MatchesIgnoresCase | time_left.py:33 | matching ignores the case of the title: two titles with the same lower-cased form are both kept or both dropped |
| Transform.Emit | time_left.py:34-36 | a matching entry yields its original-case name, the budget stored under its lower-case name, and its aggregate time over 3,600,000 |
| Transform.ChartData | time_left.py:25-37 | no more data than entries; every datum has a non-empty name whose lower-case form is a budget key, and carries that key's budget |
| Transform.MatchingIndices | time_left.py:27-33 | the matching positions, strictly increasing, each a matching entry, and every matching entry among them |
| Transform.ChartDataIsMatchingSubsequence | time_left.py:27-37 | the chart data is exactly the matching entries, each emitted once, in input order |
| Transform.ChartDataCountsMatches | time_left.py:27-37 | the number of data equals the number of matching entries, so every non-matching entry is dropped |
| Transform.ChartDataAppend | time_left.py:27-37 | the loop treats entries independently: filtering a concatenation concatenates the results |
| Transform.NoBudgetsNoData | time_left.py:33 | with an empty budget table no datum is produced |
| Transform.UpperCaseKeyNeverMatches | time_left.py:33-34 | a budget key containing an upper-case letter is never the looked-up key |
| Transform.ChartDataIgnoresItems | time_left.py:28-36 | the chart data depend only on titles and aggregate times, never on the item times behind `total_time` |
| Transform.AggregateNotItemSum | time_left.py:28-37 | an entry with aggregate 1 h and items summing to 3 h is charted at 1.0 h while `total_time` is 3.0 |
| Chart.ProportionUsed | time_left.py:62 | with a positive budget, `proportion_used` is non-negative exactly when the hours used are |
| Chart.ProportionScalesBudget | time_left.py:62 | `proportion_used` scaled by the budget gives back the hours used |
| Chart.OverBudget | time_left.py:62-67 | with a positive budget, `proportion_used >= 1` holds exactly when hours used reach the budget; the boundary counts as over |
| Chart.FreeFraction | time_left.py:65 | the free fraction is never negative, fills the bar with the used fraction under budget, and is 0 over budget |
| Chart.HoursLeft | time_left.py:66 | the remaining hours in the free tooltip are non-negative, 0 exactly when over budget, and budget minus used otherwise |
| Chart.UsedTooltip | time_left.py:67-68 | the used tooltip carries the hours used and is the over-budget warning exactly when over budget |
| Chart.RowAnnotations | time_left.py:67-91 | over budget: one dark note at the proportion with xshift -28; under budget: a light note at the proportion and a light "hours free" note at x = 1, both xshift -14, the free hours positive and equal to budget minus used |
| Chart.AddRow | time_left.py:60-91 | one pass of the loop keeps every list's earlier entries and appends to the five series the row's name, its `proportion_used`, its free fraction (non-negative), its used tooltip and its remaining-hours tooltip (non-negative), and appends exactly this row's annotations: one over budget, two under budget |
| Chart.AllAnnotations | time_left.py:57-91 | the annotations number two per datum less one per datum over budget |
| Chart.Accumulate | time_left.py:51-77 | the five series all have one entry per datum, and entry i of each is derived from datum i, `y[i]` being its project name |
| Chart.AccumulateAnnotations | time_left.py:57-91 | the annotation list the loop builds is the per-datum annotations concatenated |
| Chart.SeriesBounds | time_left.py:64-66 | every free fraction and every remaining-hours value is non-negative; under budget used plus free is 1, over budget free is 0 |
| Chart.AnnotationsInProjectOrder | time_left.py:59-91 | the annotations of datum i occupy the slice starting at two per earlier datum less one per earlier datum over budget, in project order |
| Chart.Graph | time_left.py:93-136 | both bars' rows are the project names the loop collected; the "used" bar carries the used fractions and used tooltips, the "free" bar the free fractions and remaining-hours tooltips, both over the same project rows; the layout is stacked, titled "Hours left this month", its x axis titled "Proportion of time remaining", and carries every annotation (between n and 2n) |
| Chart.FooAndBarExample | time_left.py:62-91 | 12 of 10 hours is proportion 1.2, over budget, one annotation, free 0; 4 of 10 hours is 0.4, free 0.6, 6 hours free |
| Report.Run | time_left.py:25-41 | the chart is published (as `timeleft`) if and only if some entry matches; never with an empty budget table; the published figure is the chart drawn from the filtered data, so it has at most one row per entry |
| Report.RunChartsMatchingNames | time_left.py:36-63 | whenever there is a k-th matching entry the chart is published, has a row k, and row k is that entry's name |

## Left out

- Configuration loading (time_left.py:10-15): file I/O, the bare `except`, the message and `exit()`. The budget table is a parameter.
- The time-tracking client and the summary request (time_left.py:17, 23): network. The summary is an input sequence of records.
- The month-start date from the wall clock (time_left.py:21): clock and library date arithmetic.
- Chart-service credentials, `go.Bar`/`go.Layout`/`go.Figure` and the `py.plot` publish call (time_left.py:19, 44-47, 93-137): a foreign library and the network. The figure keeps the bars' names, rows, values and tooltips, the stacking, the titles, the annotations and the report name; bar orientation, marker colours and `hoverinfo` are dropped.
- Text formatting with `'{0:.1f}'`, fonts, marker colours, `hoverinfo`, `textangle` and `showarrow` (time_left.py:66-121): float-to-string formatting and styling. Texts are a kind plus the number; annotation colour is kept as a dark/light shade.
- Zero or negative budgets: the chart stage requires positive budgets instead of modelling Python's division by zero at time_left.py:62.
- Python float rounding: hours and proportions are exact reals.
- Summary.MsToHours: assumes Python 3's true division; under Python 2, `project['time'] / 1000 / 60 / 60` on integers would floor to whole hours.
- Text.Lower: folds only ASCII `A`..`Z`; Python's `str.lower` also folds non-ASCII letters.
