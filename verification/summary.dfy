/**
 The records returned by the time-tracking service's summary report, and
 the two hour figures `main` derives from each of them: the aggregate
 time and the clamped sum of the item times.
 */
module Summary {
  import opened Wrappers

  /** One project entry of the summary: `title.project` (possibly null),
      the aggregate `time` in milliseconds and the `time` of each item. */
  datatype ProjectSummary = ProjectSummary(title: Option<string>, timeMs: int, itemsMs: seq<int>)

  const MsPerHour: int := 3600000

  /** `ms / 1000 / 60 / 60` with Python 3's true division. */
  function MsToHours(ms: int): (h: real)
    ensures h * MsPerHour as real == ms as real
    ensures h >= 0.0 <==> ms >= 0
    ensures ms == MsPerHour ==> h == 1.0
  {
    ms as real / 1000.0 / 60.0 / 60.0
  }

  /** `max(t, 0)`: the clamp applied to every item time. */
  function Clamp(t: int): (r: nat)
    ensures r >= t
    ensures t >= 0 ==> r == t
    ensures t < 0 ==> r == 0
  {
    if t >= 0 then t else 0
  }

  /** `sum(max(entry['time'], 0) for entry in items)`, summed from the left. */
  function ClampedSum(items: seq<int>): (r: nat)
    ensures forall i :: 0 <= i < |items| ==> Clamp(items[i]) <= r
  {
    if |items| == 0 then 0 else ClampedSum(items[..|items| - 1]) + Clamp(items[|items| - 1])
  }

  /** `total_time`: the clamped item sum in hours. */
  function TotalTime(items: seq<int>): (h: real)
    ensures h >= 0.0
    ensures h == Sum(NonNegatives(items)) as real / MsPerHour as real
  {
    ClampedSumIsSumOfNonNegatives(items);
    MsToHours(ClampedSum(items))
  }

  // An independent reading of the clamped sum: drop the negative items, add the rest.

  function NonNegatives(items: seq<int>): (r: seq<int>)
    ensures forall x :: x in r ==> x >= 0 && x in items
    ensures forall x :: x in items && x >= 0 ==> x in r
    ensures |r| <= |items|
  {
    if |items| == 0 then []
    else if items[0] >= 0 then [items[0]] + NonNegatives(items[1..])
    else NonNegatives(items[1..])
  }

  function Sum(xs: seq<int>): int {
    if |xs| == 0 then 0 else xs[0] + Sum(xs[1..])
  }

  lemma {:induction false} SumAppend(a: seq<int>, b: seq<int>)
    ensures Sum(a + b) == Sum(a) + Sum(b)
  {
    if |a| == 0 {
      assert a + b == b;
    } else {
      assert (a + b)[1..] == a[1..] + b;
      SumAppend(a[1..], b);
    }
  }

  lemma {:induction false} NonNegativesAppend(a: seq<int>, b: seq<int>)
    ensures NonNegatives(a + b) == NonNegatives(a) + NonNegatives(b)
  {
    if |a| == 0 {
      assert a + b == b;
    } else {
      assert (a + b)[1..] == a[1..] + b;
      NonNegativesAppend(a[1..], b);
    }
  }

  /** The clamped sum equals the sum of only the non-negative item times. */
  lemma {:induction false} ClampedSumIsSumOfNonNegatives(items: seq<int>)
    ensures ClampedSum(items) == Sum(NonNegatives(items))
  {
    if |items| > 0 {
      var front, last := items[..|items| - 1], items[|items| - 1];
      assert items == front + [last];
      ClampedSumIsSumOfNonNegatives(front);
      NonNegativesAppend(front, [last]);
      SumAppend(NonNegatives(front), NonNegatives([last]));
      assert NonNegatives([last]) == if last >= 0 then [last] else [];
    }
  }

  /** Replacing one negative item time by 0 does not change the clamped sum. */
  lemma {:induction false} ClampedSumIgnoresNegative(items: seq<int>, i: nat)
    requires i < |items| && items[i] < 0
    ensures ClampedSum(items[i := 0]) == ClampedSum(items)
  {
    var n := |items|;
    var items' := items[i := 0];
    if i < n - 1 {
      assert items'[..n - 1] == items[..n - 1][i := 0];
      ClampedSumIgnoresNegative(items[..n - 1], i);
    } else {
      assert items'[..n - 1] == items[..n - 1];
    }
  }

  /** `total_time` of the items `[3600000, -500, 7200000]` is 3 hours. */
  lemma TotalTimeExample()
    ensures TotalTime([3600000, -500, 7200000]) == 3.0
  {
    var items := [3600000, -500, 7200000];
    var one, two := [3600000], [3600000, -500];
    assert two[..1] == one && one[..0] == [];
    assert ClampedSum(one) == 3600000;
    assert ClampedSum(two) == 3600000;
    assert items[..2] == two;
    assert ClampedSum(items) == 10800000;
  }
}
