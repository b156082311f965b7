/**
 The pipeline of `main` once configuration and the summary are in hand:
 filter the summary against the budget table, and draw and publish the
 chart only when something is left.
 */
module Report {
  import opened Wrappers
  import opened Summary
  import opened Transform
  import opened Chart

  /** The figure handed to the chart service and the name it is published under. */
  datatype Publication = Publication(figure: Figure, filename: string)

  const ReportName: string := "timeleft"

  predicate PositiveBudgets(budgets: Budgets) {
    forall key :: key in budgets ==> budgets[key] > 0.0
  }

  /** The publication `main` makes for a summary, if any. */
  function Run(summary: seq<ProjectSummary>, budgets: Budgets): (out: Option<Publication>)
    requires PositiveBudgets(budgets)
    ensures out.Some? <==> exists i :: 0 <= i < |summary| && Matches(summary[i], budgets)
    ensures budgets == map[] ==> out == None
    ensures out.Some? ==> out.value.filename == "timeleft"
    ensures out.Some? ==> 0 < |out.value.figure.used.y| <= |summary|
    ensures out.Some? ==> out.value.figure == Graph(ChartData(summary, budgets))
  {
    var data := ChartData(summary, budgets);
    ChartDataIsMatchingSubsequence(summary, budgets);
    if data == [] then
      None
    else
      Some(Publication(Graph(data), ReportName))
  }

  /** For every matching entry the chart is drawn, and its rows are the matching entries' names, in input order. */
  lemma {:induction false} RunChartsMatchingNames(summary: seq<ProjectSummary>, budgets: Budgets, k: nat)
    requires PositiveBudgets(budgets)
    requires k < |MatchingIndices(summary, budgets)|
    ensures Run(summary, budgets).Some?
    ensures k < |Run(summary, budgets).value.figure.used.y|
    ensures Run(summary, budgets).value.figure.used.y[k] == summary[MatchingIndices(summary, budgets)[k]].title.value
  {
    ChartDataIsMatchingSubsequence(summary, budgets);
  }
}
