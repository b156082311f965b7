/**
 The chart stage, `graph_charts`: for every chart datum, one row of each of
 five parallel series and one or two text annotations, then the two stacked
 horizontal bars and the layout that carry them.

 Tooltip and annotation texts are kept as a message kind plus the number
 the script formats into it with one decimal place.
 */
module Chart {
  import opened Transform

  /** The hover texts of the two bars. */
  datatype Tooltip =
    | OverBudgetUsed(hours: real)   // warning: over budget, with the hours used
    | HoursUsed(hours: real)        // the hours used
    | HoursRemaining(hours: real)   // the hours still available

  /** The annotation texts. */
  datatype Note =
    | OverBudgetNote(hours: real)   // over-budget banner with the hours used
    | UsedNote(hours: real)         // hours used, inside the used bar
    | FreeNote(hours: real)         // hours free, at the right edge

  /** Font colour of an annotation: black over budget, near-white otherwise. */
  datatype Shade = Dark | Light

  /** One annotation: position on the x axis, the row (project name) it
      belongs to, its text, its colour and its horizontal pixel offset.
      Every annotation is vertical (`textangle=90`) and has no arrow. */
  datatype Annotation = Annotation(x: real, y: string, note: Note, shade: Shade, xshift: int)

  /** The local lists of `graph_charts` after its loop. */
  datatype Rows = Rows(
    y: seq<string>,
    xUsed: seq<real>,
    xFree: seq<real>,
    tooltipUsed: seq<Tooltip>,
    tooltipFree: seq<Tooltip>,
    annotations: seq<Annotation>)

  datatype Bar = Bar(name: string, y: seq<string>, x: seq<real>, text: seq<Tooltip>)

  datatype Layout = Layout(stacked: bool, title: string, xAxisTitle: string, annotations: seq<Annotation>)

  datatype Figure = Figure(used: Bar, free: Bar, layout: Layout)

  const OverShift: int := -28
  const UnderShift: int := -14

  predicate AllPositive(data: seq<ChartDatum>) {
    forall k :: 0 <= k < |data| ==> data[k].budget > 0.0
  }

  /** `proportion_used = time_used / budget`. */
  function ProportionUsed(d: ChartDatum): (p: real)
    requires d.budget > 0.0
    ensures p >= 0.0 <==> d.time >= 0.0
  {
    d.time / d.budget
  }

  /** The proportion scales the budget back to the hours used. */
  lemma ProportionScalesBudget(d: ChartDatum)
    requires d.budget > 0.0
    ensures ProportionUsed(d) * d.budget == d.time
  {
  }

  /** `proportion_used >= 1`: the boundary itself counts as over budget.
      With a positive budget, that is at least as many hours used as budgeted. */
  predicate OverBudget(d: ChartDatum)
    requires d.budget > 0.0
    ensures OverBudget(d) <==> d.time >= d.budget
  {
    var p := ProportionUsed(d);
    ProportionScalesBudget(d);
    AtLeastOneIffScaledAtLeast(p, d.budget, d.time);
    p >= 1.0
  }

  /** For a positive scale, a factor reaches 1 exactly when the scaled value reaches the scale. */
  lemma AtLeastOneIffScaledAtLeast(p: real, b: real, t: real)
    requires b > 0.0 && p * b == t
    ensures p >= 1.0 <==> t >= b
  {
  }

  /** `max(0, 1 - proportion_used)`: the free part of the bar. */
  function FreeFraction(d: ChartDatum): (f: real)
    requires d.budget > 0.0
    ensures f >= 0.0
    ensures !OverBudget(d) ==> ProportionUsed(d) + f == 1.0
    ensures OverBudget(d) ==> f == 0.0
  {
    if 1.0 - ProportionUsed(d) > 0.0 then 1.0 - ProportionUsed(d) else 0.0
  }

  /** `max(0, budget - time_used)`: the hours named in the free tooltip. */
  function HoursLeft(d: ChartDatum): (h: real)
    requires d.budget > 0.0
    ensures h >= 0.0
    ensures h == 0.0 <==> OverBudget(d)
    ensures !OverBudget(d) ==> h + d.time == d.budget
  {
    if d.budget - d.time > 0.0 then d.budget - d.time else 0.0
  }

  function UsedTooltip(d: ChartDatum): (t: Tooltip)
    requires d.budget > 0.0
    ensures t.hours == d.time
    ensures t.OverBudgetUsed? <==> OverBudget(d)
    ensures t.OverBudgetUsed? || t.HoursUsed?
  {
    if OverBudget(d) then OverBudgetUsed(d.time) else HoursUsed(d.time)
  }

  /** The annotations one datum adds: a single dark note at the end of the
      used bar when over budget, otherwise a light "used" note there and a
      light "free" note at the right edge. */
  function RowAnnotations(d: ChartDatum): (a: seq<Annotation>)
    requires d.budget > 0.0
    ensures |a| == if OverBudget(d) then 1 else 2
    ensures forall k :: 0 <= k < |a| ==> a[k].y == d.project
    ensures a[0].x == ProportionUsed(d) && a[0].note.hours == d.time
    ensures OverBudget(d) ==> a[0].note.OverBudgetNote? && a[0].shade == Dark && a[0].xshift == -28
    ensures !OverBudget(d) ==>
      && a[0].note.UsedNote? && a[0].shade == Light && a[0].xshift == -14
      && a[1].x == 1.0 && a[1].note.FreeNote? && a[1].shade == Light && a[1].xshift == -14
      && a[1].note.hours > 0.0 && a[1].note.hours + d.time == d.budget
  {
    var p := ProportionUsed(d);
    if OverBudget(d) then
      [Annotation(p, d.project, OverBudgetNote(d.time), Dark, OverShift)]
    else
      [Annotation(p, d.project, UsedNote(d.time), Light, UnderShift),
       Annotation(1.0, d.project, FreeNote(d.budget - d.time), Light, UnderShift)]
  }

  /** How many data are over budget. */
  function CountOver(data: seq<ChartDatum>): (c: nat)
    requires AllPositive(data)
    ensures c <= |data|
  {
    if |data| == 0 then 0
    else CountOver(data[..|data| - 1]) + (if OverBudget(data[|data| - 1]) then 1 else 0)
  }

  /** The annotations of all data, datum by datum: two per datum, less one
      per datum over budget. */
  function AllAnnotations(data: seq<ChartDatum>): (a: seq<Annotation>)
    requires AllPositive(data)
    ensures |a| == 2 * |data| - CountOver(data)
    ensures |data| <= |a| <= 2 * |data|
  {
    if |data| == 0 then []
    else AllAnnotations(data[..|data| - 1]) + RowAnnotations(data[|data| - 1])
  }

  /** The body of the loop of `graph_charts`: one datum appended to each list. */
  function AddRow(rows: Rows, d: ChartDatum): (next: Rows)
    requires d.budget > 0.0
    ensures rows.y < next.y && |next.y| == |rows.y| + 1 && next.y[|rows.y|] == d.project
    ensures rows.xUsed < next.xUsed && |next.xUsed| == |rows.xUsed| + 1
    ensures rows.xFree < next.xFree && |next.xFree| == |rows.xFree| + 1 && next.xFree[|rows.xFree|] >= 0.0
    ensures rows.tooltipUsed < next.tooltipUsed && |next.tooltipUsed| == |rows.tooltipUsed| + 1
    ensures rows.tooltipFree < next.tooltipFree && |next.tooltipFree| == |rows.tooltipFree| + 1
    ensures next.tooltipFree[|rows.tooltipFree|].hours >= 0.0
    ensures rows.annotations < next.annotations
    ensures |next.annotations| == |rows.annotations| + (if OverBudget(d) then 1 else 2)
    ensures next.xUsed[|rows.xUsed|] == ProportionUsed(d) && next.xFree[|rows.xFree|] == FreeFraction(d)
    ensures next.tooltipUsed[|rows.tooltipUsed|] == UsedTooltip(d) && next.tooltipFree[|rows.tooltipFree|] == HoursRemaining(HoursLeft(d))
    ensures next.annotations[|rows.annotations|..] == RowAnnotations(d)
  {
    Rows(
      rows.y + [d.project],
      rows.xUsed + [ProportionUsed(d)],
      rows.xFree + [FreeFraction(d)],
      rows.tooltipUsed + [UsedTooltip(d)],
      rows.tooltipFree + [HoursRemaining(HoursLeft(d))],
      rows.annotations + RowAnnotations(d))
  }

  /** The lists after the loop has run over `data`: one entry per datum in
      each series, entry `i` coming from datum `i`. */
  function Accumulate(data: seq<ChartDatum>): (rows: Rows)
    requires AllPositive(data)
    ensures |rows.y| == |rows.xUsed| == |rows.xFree| == |rows.tooltipUsed| == |rows.tooltipFree| == |data|
    ensures forall i :: 0 <= i < |data| ==> rows.y[i] == data[i].project
    ensures forall i :: 0 <= i < |data| ==> rows.xUsed[i] == ProportionUsed(data[i])
    ensures forall i :: 0 <= i < |data| ==> rows.xFree[i] == FreeFraction(data[i])
    ensures forall i :: 0 <= i < |data| ==> rows.tooltipUsed[i] == UsedTooltip(data[i])
    ensures forall i :: 0 <= i < |data| ==> rows.tooltipFree[i] == HoursRemaining(HoursLeft(data[i]))
  {
    if |data| == 0 then Rows([], [], [], [], [], [])
    else
      var n := |data| - 1;
      var front, d := data[..n], data[n];
      assert forall i :: 0 <= i < n ==> front[i] == data[i];
      var rows := Accumulate(front);
      var next := AddRow(rows, d);
      next
  }

  /** The annotation list the loop builds is `AllAnnotations`. */
  lemma {:induction false} AccumulateAnnotations(data: seq<ChartDatum>)
    requires AllPositive(data)
    ensures Accumulate(data).annotations == AllAnnotations(data)
  {
    if |data| > 0 {
      var front := data[..|data| - 1];
      assert AllPositive(front);
      AccumulateAnnotations(front);
    }
  }

  /** Every row of the free series is non-negative and names non-negative
      remaining hours; under budget the used and free parts fill the bar
      exactly, over budget the free part is empty. */
  lemma {:induction false} SeriesBounds(data: seq<ChartDatum>, i: nat)
    requires AllPositive(data) && i < |data|
    ensures Accumulate(data).xFree[i] >= 0.0
    ensures Accumulate(data).tooltipFree[i].hours >= 0.0
    ensures Accumulate(data).tooltipFree[i].hours == 0.0 <==> OverBudget(data[i])
    ensures OverBudget(data[i]) ==> Accumulate(data).xFree[i] == 0.0
    ensures !OverBudget(data[i]) ==> Accumulate(data).xUsed[i] + Accumulate(data).xFree[i] == 1.0
  {
  }

  /** Where the annotations of datum `i` start: two for every earlier datum,
      one less for each earlier datum over budget. */
  function AnnotationOffset(data: seq<ChartDatum>, i: nat): nat
    requires AllPositive(data) && i <= |data|
  {
    2 * i - CountOver(data[..i])
  }

  /** The annotations come in project order: the annotations of datum `i`
      sit at `AnnotationOffset(data, i)`, exactly as `RowAnnotations` makes them. */
  lemma {:induction false} AnnotationsInProjectOrder(data: seq<ChartDatum>, i: nat)
    requires AllPositive(data) && i < |data|
    ensures AnnotationOffset(data, i) + |RowAnnotations(data[i])| <= |AllAnnotations(data)|
    ensures AllAnnotations(data)[AnnotationOffset(data, i)..AnnotationOffset(data, i) + |RowAnnotations(data[i])|]
      == RowAnnotations(data[i])
  {
    var n := |data| - 1;
    var front := data[..n];
    assert AllPositive(front);
    var before, last := AllAnnotations(front), RowAnnotations(data[n]);
    assert AllAnnotations(data) == before + last;
    var row := RowAnnotations(data[i]);
    var lo := AnnotationOffset(data, i);
    if i < n {
      assert front[i] == data[i];
      assert front[..i] == data[..i];
      assert lo == AnnotationOffset(front, i);
      AnnotationsInProjectOrder(front, i);
      PrefixSlice(before, last, lo, lo + |row|);
    } else {
      assert front == data[..i];
      assert (before + last)[lo..] == last;
    }
  }

  lemma PrefixSlice<T>(a: seq<T>, b: seq<T>, lo: nat, hi: nat)
    requires lo <= hi <= |a|
    ensures (a + b)[lo..hi] == a[lo..hi]
  {
  }

  /** `go.Bar`, `go.Layout` and `go.Figure` around the lists. */
  function Graph(data: seq<ChartDatum>): (fig: Figure)
    requires AllPositive(data)
    ensures fig.used.name == "used" && fig.free.name == "free"
    ensures fig.used.y == fig.free.y == Accumulate(data).y && |fig.used.y| == |data|
    ensures |fig.used.x| == |fig.free.x| == |fig.used.text| == |fig.free.text| == |data|
    ensures fig.used.x == Accumulate(data).xUsed && fig.used.text == Accumulate(data).tooltipUsed
    ensures fig.free.x == Accumulate(data).xFree && fig.free.text == Accumulate(data).tooltipFree
    ensures fig.layout.stacked && fig.layout.title == "Hours left this month"
    ensures fig.layout.xAxisTitle == "Proportion of time remaining"
    ensures fig.layout.annotations == AllAnnotations(data)
    ensures |data| <= |fig.layout.annotations| <= 2 * |data|
  {
    var rows := Accumulate(data);
    AccumulateAnnotations(data);
    Figure(
      Bar("used", rows.y, rows.xUsed, rows.tooltipUsed),
      Bar("free", rows.y, rows.xFree, rows.tooltipFree),
      Layout(true, "Hours left this month", "Proportion of time remaining", rows.annotations))
  }

  /** "Foo" at 12 of 10 hours is over budget with one dark note; "Bar" at 4
      of 10 hours has 0.6 of its bar free and 6 hours remaining. */
  lemma FooAndBarExample()
    ensures var foo := ChartDatum("Foo", 12.0, 10.0);
            ProportionUsed(foo) == 1.2 && OverBudget(foo) && UsedTooltip(foo) == OverBudgetUsed(12.0)
            && FreeFraction(foo) == 0.0 && |RowAnnotations(foo)| == 1
    ensures var bar := ChartDatum("Bar", 4.0, 10.0);
            ProportionUsed(bar) == 0.4 && !OverBudget(bar) && FreeFraction(bar) == 0.6
            && HoursLeft(bar) == 6.0 && RowAnnotations(bar)[1].note == FreeNote(6.0)
  {
  }
}
