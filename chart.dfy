/**
 * The hit test behind the donut charts (`getSelectedCategory`): the slices are
 * laid out one after another along the angle axis, each as wide as its total,
 * and a selected angle value picks the first slice whose closed interval holds it.
 */
module Chart {
  import opened Wrappers
  import opened Seqs

  /** Where slice `n` starts: the sum of the totals of the slices before it. */
  function PrefixTotal(data: seq<(string, real)>, n: nat): (r: real)
    requires n <= |data|
  {
    if n == 0 then 0.0 else PrefixTotal(data, n - 1) + data[n - 1].1
  }

  /** The angle lies in slice `i`'s interval, ends included. */
  predicate Hits(data: seq<(string, real)>, i: nat, angle: real)
    requires i < |data|
  {
    PrefixTotal(data, i) <= angle <= PrefixTotal(data, i + 1)
  }

  /** The first slice at or after `from` that the angle hits, if any. */
  function FirstHit(data: seq<(string, real)>, angle: real, from: nat): (r: Option<nat>)
    requires from <= |data|
    ensures r.Some? ==> from <= r.value < |data| && Hits(data, r.value, angle)
    ensures r.Some? ==> forall j :: from <= j < r.value ==> !Hits(data, j, angle)
    ensures r.None? ==> forall j :: from <= j < |data| ==> !Hits(data, j, angle)
    decreases |data| - from
  {
    if from == |data| then None
    else if Hits(data, from, angle) then Some(from)
    else FirstHit(data, angle, from + 1)
  }

  /** The slice the angle selects, if any. */
  function Selected(data: seq<(string, real)>, angle: real): (r: Option<(string, real)>)
  {
    match FirstHit(data, angle, 0)
    case None => None
    case Some(i) => Some(data[i])
  }

  /**
   * `getSelectedCategory`: nothing while no angle is selected; otherwise the first
   * slice whose interval holds the angle, found by walking the running sum.
   */
  method GetSelectedCategory(data: seq<(string, real)>, total: real, selectedAngle: Option<real>)
    returns (r: Option<(string, real)>)
    ensures selectedAngle.None? ==> r.None?
    ensures selectedAngle.Some? ==> r == Selected(data, selectedAngle.value)
  {
    if selectedAngle.None? {
      return None;
    }
    var angle := selectedAngle.value;
    var currentSum := 0.0;
    for i := 0 to |data|
      invariant currentSum == PrefixTotal(data, i)
      invariant FirstHit(data, angle, 0) == FirstHit(data, angle, i)
    {
      var nextSum := currentSum + data[i].1;
      if angle >= currentSum && angle <= nextSum {
        return Some(data[i]);
      }
      currentSum := nextSum;
    }
    return None;
  }

  /** The last slice ends at the grand total of the slices (`totalFiltered`). */
  lemma {:induction false} PrefixTotalIsTotal(data: seq<(string, real)>, n: nat)
    requires n <= |data|
    ensures PrefixTotal(data, n) == SumBy(data[..n], Seconds(data))
  {
    if n > 0 {
      PrefixTotalIsTotal(data, n - 1);
      assert data[..n] == data[..n - 1] + [data[n - 1]];
      SumByConcat(data[..n - 1], [data[n - 1]], Seconds(data));
      assert SumBy([data[n - 1]], Seconds(data)) == data[n - 1].1 + SumBy([data[n - 1]][1..], Seconds(data));
    }
  }

  lemma GrandTotal(data: seq<(string, real)>)
    ensures PrefixTotal(data, |data|) == TotalOf(data)
  {
    PrefixTotalIsTotal(data, |data|);
    assert data[..|data|] == data;
  }

  /** An angle anywhere from 0 to the grand total selects a slice. */
  lemma WithinTotalSelects(data: seq<(string, real)>, angle: real)
    requires data != []
    requires 0.0 <= angle <= TotalOf(data)
    ensures Selected(data, angle).Some?
  {
    GrandTotal(data);
    HitFrom(data, angle, 0);
  }

  lemma {:induction false} HitFrom(data: seq<(string, real)>, angle: real, from: nat)
    requires from < |data|
    requires PrefixTotal(data, from) <= angle <= PrefixTotal(data, |data|)
    ensures FirstHit(data, angle, from).Some?
    decreases |data| - from
  {
    if !Hits(data, from, angle) && from + 1 < |data| {
      HitFrom(data, angle, from + 1);
    }
  }

  /** With no negative slice, the running sum only grows. */
  lemma {:induction false} PrefixTotalMonotone(data: seq<(string, real)>, i: nat, j: nat)
    requires i <= j <= |data|
    requires forall k :: 0 <= k < |data| ==> data[k].1 >= 0.0
    ensures PrefixTotal(data, i) <= PrefixTotal(data, j)
    decreases j
  {
    if i < j {
      PrefixTotalMonotone(data, i, j - 1);
    }
  }

  /** With no negative slice, an angle below 0 or past the grand total selects nothing. */
  lemma OutsideTotalSelectsNothing(data: seq<(string, real)>, angle: real)
    requires forall k :: 0 <= k < |data| ==> data[k].1 >= 0.0
    requires angle < 0.0 || angle > TotalOf(data)
    ensures Selected(data, angle) == None
  {
    GrandTotal(data);
    forall j | 0 <= j < |data| ensures !Hits(data, j, angle) {
      PrefixTotalMonotone(data, 0, j);
      PrefixTotalMonotone(data, j + 1, |data|);
    }
  }
}
