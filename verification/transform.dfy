/**
 The filter/transform loop of `main`: every summary entry whose project
 name is non-empty and whose lower-cased name is a key of the budget table
 becomes one chart datum, in input order; every other entry is dropped.
 */
module Transform {
  import opened Text
  import opened Wrappers
  import opened Summary

  /** One row handed to the chart stage: the project name as the service
      spells it, the hours spent and the budgeted hours. */
  datatype ChartDatum = ChartDatum(project: string, time: real, budget: real)

  /** The budget table: lower-case project name to budgeted hours. */
  type Budgets = map<string, real>

  /** `name and name.lower() in cfg['projects']`: None and "" are both falsy. */
  predicate Matches(p: ProjectSummary, budgets: Budgets) {
    p.title.Some? && p.title.value != "" && Lower(p.title.value) in budgets
  }

  /** Matching ignores case: two titles that fold to the same name match alike. */
  lemma MatchesIgnoresCase(p: ProjectSummary, q: ProjectSummary, budgets: Budgets)
    requires p.title.Some? && q.title.Some? && Lower(p.title.value) == Lower(q.title.value)
    ensures Matches(p, budgets) <==> Matches(q, budgets)
  {
    assert |p.title.value| == |Lower(p.title.value)| == |q.title.value|;
  }

  /** The datum built for a matching entry. */
  function Emit(p: ProjectSummary, budgets: Budgets): (d: ChartDatum)
    requires Matches(p, budgets)
    ensures d.project == p.title.value
    ensures d.budget == budgets[Lower(p.title.value)] && d.budget in budgets.Values
    ensures d.time * MsPerHour as real == p.timeMs as real
  {
    ChartDatum(p.title.value, MsToHours(p.timeMs), budgets[Lower(p.title.value)])
  }

  /** `chart_data` after the loop over `summary['data']`. */
  function ChartData(summary: seq<ProjectSummary>, budgets: Budgets): (r: seq<ChartDatum>)
    ensures |r| <= |summary|
    ensures forall k :: 0 <= k < |r| ==> r[k].budget in budgets.Values
    ensures forall k :: 0 <= k < |r| ==> r[k].project != "" && Lower(r[k].project) in budgets && r[k].budget == budgets[Lower(r[k].project)]
  {
    if |summary| == 0 then []
    else
      var front, p := summary[..|summary| - 1], summary[|summary| - 1];
      var r := ChartData(front, budgets);
      if Matches(p, budgets) then r + [Emit(p, budgets)] else r
  }

  /** The positions of the matching entries, in increasing order. */
  function MatchingIndices(summary: seq<ProjectSummary>, budgets: Budgets): (idx: seq<nat>)
    ensures forall k :: 0 <= k < |idx| ==> idx[k] < |summary| && Matches(summary[idx[k]], budgets)
    ensures forall i :: 0 <= i < |summary| && Matches(summary[i], budgets) ==> i in idx
    ensures forall k, l :: 0 <= k < l < |idx| ==> idx[k] < idx[l]
  {
    if |summary| == 0 then []
    else
      var n := |summary| - 1;
      var idx := MatchingIndices(summary[..n], budgets);
      if Matches(summary[n], budgets) then idx + [n] else idx
  }

  /** The chart data is exactly the matching entries, each emitted once, in input order. */
  lemma {:induction false} ChartDataIsMatchingSubsequence(summary: seq<ProjectSummary>, budgets: Budgets)
    ensures |ChartData(summary, budgets)| == |MatchingIndices(summary, budgets)|
    ensures forall k :: 0 <= k < |ChartData(summary, budgets)| ==>
      ChartData(summary, budgets)[k] == Emit(summary[MatchingIndices(summary, budgets)[k]], budgets)
  {
    if |summary| > 0 {
      var n := |summary| - 1;
      var front := summary[..n];
      ChartDataIsMatchingSubsequence(front, budgets);
      var r, idx := ChartData(front, budgets), MatchingIndices(front, budgets);
      assert forall k :: 0 <= k < |idx| ==> summary[idx[k]] == front[idx[k]];
      if Matches(summary[n], budgets) {
        assert ChartData(summary, budgets) == r + [Emit(summary[n], budgets)];
        assert MatchingIndices(summary, budgets) == idx + [n];
      } else {
        assert ChartData(summary, budgets) == r;
        assert MatchingIndices(summary, budgets) == idx;
      }
    }
  }

  /** An entry is dropped exactly when it does not match: the number of data is the number of matches. */
  lemma ChartDataCountsMatches(summary: seq<ProjectSummary>, budgets: Budgets)
    ensures |ChartData(summary, budgets)| == |set i | 0 <= i < |summary| && Matches(summary[i], budgets)|
  {
    var idx := MatchingIndices(summary, budgets);
    ChartDataIsMatchingSubsequence(summary, budgets);
    var matching := set i | 0 <= i < |summary| && Matches(summary[i], budgets);
    assert matching == set k | 0 <= k < |idx| :: idx[k];
    DistinctCard(idx);
  }

  /** A strictly increasing sequence has as many elements as its set of values. */
  lemma {:induction false} DistinctCard(idx: seq<nat>)
    requires forall k, l :: 0 <= k < l < |idx| ==> idx[k] < idx[l]
    ensures |set k | 0 <= k < |idx| :: idx[k]| == |idx|
  {
    if |idx| > 0 {
      var n := |idx| - 1;
      DistinctCard(idx[..n]);
      var front := set k | 0 <= k < n :: idx[..n][k];
      assert (set k | 0 <= k < |idx| :: idx[k]) == front + {idx[n]};
      assert idx[n] !in front;
    }
  }

  /** The loop distributes over concatenation of the fetched entries. */
  lemma {:induction false} ChartDataAppend(a: seq<ProjectSummary>, b: seq<ProjectSummary>, budgets: Budgets)
    ensures ChartData(a + b, budgets) == ChartData(a, budgets) + ChartData(b, budgets)
  {
    if |b| == 0 {
      assert a + b == a;
    } else {
      var n := |b| - 1;
      assert (a + b)[..|a + b| - 1] == a + b[..n];
      ChartDataAppend(a, b[..n], budgets);
    }
  }

  /** With an empty budget table nothing is emitted. */
  lemma NoBudgetsNoData(summary: seq<ProjectSummary>)
    ensures ChartData(summary, map[]) == []
  {
  }

  /** A budget key containing an upper-case letter is never looked up. */
  lemma UpperCaseKeyNeverMatches(p: ProjectSummary, budgets: Budgets, key: string, j: nat)
    requires key in budgets && j < |key| && IsUpper(key[j])
    requires Matches(p, budgets)
    ensures Lower(p.title.value) != key
  {
  }

  /** The emitted time comes from the aggregate field only: the item times,
      and hence `total_time`, have no influence on the chart data. */
  lemma {:induction false} ChartDataIgnoresItems(summary: seq<ProjectSummary>, other: seq<ProjectSummary>, budgets: Budgets)
    requires |other| == |summary|
    requires forall i :: 0 <= i < |summary| ==> other[i].title == summary[i].title && other[i].timeMs == summary[i].timeMs
    ensures ChartData(other, budgets) == ChartData(summary, budgets)
  {
    if |summary| > 0 {
      var n := |summary| - 1;
      ChartDataIgnoresItems(summary[..n], other[..n], budgets);
    }
  }

  /** An entry whose items sum to three hours but whose aggregate is one hour
      is charted at one hour. */
  lemma AggregateNotItemSum()
    ensures var p := ProjectSummary(Some("Foo"), 3600000, [3600000, -500, 7200000]);
            var budgets := map["foo" := 10.0];
            ChartData([p], budgets) == [ChartDatum("Foo", 1.0, 10.0)] && TotalTime(p.itemsMs) == 3.0
  {
    var p := ProjectSummary(Some("Foo"), 3600000, [3600000, -500, 7200000]);
    assert Lower("Foo") == "foo" by {
      assert "Foo"[..2] == "Fo" && "Fo"[..1] == "F";
    }
    assert [p][..0] == [];
    TotalTimeExample();
  }
}
