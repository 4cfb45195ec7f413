/** Choosing the slice to pull out: pandas' `idxmax` over a value column,
    optionally restricted to the rows a filter kept. */
module Selection {
  import opened Frame

  /** k is the index `idxmax` reports among the eligible positions: eligible,
      holding a maximum of the eligible values, with every earlier eligible
      value strictly smaller (the first maximum wins ties). */
  ghost predicate IsFirstMax(values: seq<nat>, eligible: seq<bool>, k: nat)
    requires |values| == |eligible|
  {
    && k < |values|
    && eligible[k]
    && (forall j :: 0 <= j < |values| && eligible[j] ==> values[j] <= values[k])
    && (forall j :: 0 <= j < k && eligible[j] ==> values[j] < values[k])
  }

  /** Every position is eligible: `idxmax` over an unfiltered column. */
  function AllEligible(n: nat): (e: seq<bool>)
    ensures |e| == n
  {
    seq(n, _ => true)
  }

  /** `idxmax` over the eligible positions of a value column; None when no
      position is eligible, where pandas raises. */
  function IdxMaxWhere(values: seq<nat>, eligible: seq<bool>): (r: Option<nat>)
    requires |values| == |eligible|
    ensures r.None? <==> forall j :: 0 <= j < |values| ==> !eligible[j]
    ensures r.Some? ==> IsFirstMax(values, eligible, r.value)
    decreases |values|
  {
    if |values| == 0 then None
    else
      var n := |values| - 1;
      var prev := IdxMaxWhere(values[..n], eligible[..n]);
      if eligible[n] && (prev.None? || values[prev.value] < values[n]) then Some(n)
      else prev
  }

  /** `idxmax` over a whole value column. */
  function IdxMax(values: seq<nat>): (r: Option<nat>)
    ensures r.None? <==> |values| == 0
    ensures r.Some? ==> r.value < |values|
    ensures r.Some? ==> forall j :: 0 <= j < |values| ==> values[j] <= values[r.value]
    ensures r.Some? ==> forall j :: 0 <= j < r.value ==> values[j] < values[r.value]
  {
    var r := IdxMaxWhere(values, AllEligible(|values|));
    assert r.None? ==> |values| == 0 by {
      if |values| > 0 { assert AllEligible(|values|)[0]; }
    }
    r
  }

  /** The first-maximum index is unique, so IsFirstMax fully determines what
      `idxmax` returns. */
  lemma FirstMaxUnique(values: seq<nat>, eligible: seq<bool>, k1: nat, k2: nat)
    requires |values| == |eligible|
    requires IsFirstMax(values, eligible, k1) && IsFirstMax(values, eligible, k2)
    ensures k1 == k2
  {
  }

  /** IdxMaxWhere returns k exactly when k is the first eligible maximum. */
  lemma IdxMaxWhereIff(values: seq<nat>, eligible: seq<bool>, k: nat)
    requires |values| == |eligible|
    ensures IdxMaxWhere(values, eligible) == Some(k) <==> IsFirstMax(values, eligible, k)
  {
    var r := IdxMaxWhere(values, eligible);
    if IsFirstMax(values, eligible, k) {
      assert eligible[k];
      assert r.Some?;
      FirstMaxUnique(values, eligible, r.value, k);
    }
  }

  /** Ties go to the first maximum: over [5, 9, 9] `idxmax` is 1. One case of
      IdxMaxWhereIff, which states the first-maximum rule for all inputs. */
  lemma TieGoesToFirst()
    ensures IdxMax([5, 9, 9]) == Some(1)
  {
    IdxMaxWhereIff([5, 9, 9], AllEligible(3), 1);
  }

  /** An ineligible position is never chosen, however large its value:
      over [100, 3, 7] with position 0 excluded, the choice is 2. One case of
      IdxMaxWhereIff, which states for all inputs that only an eligible
      position is chosen. */
  lemma ExcludedNeverChosen()
    ensures IdxMaxWhere([100, 3, 7], [false, true, true]) == Some(2)
  {
    IdxMaxWhereIff([100, 3, 7], [false, true, true], 2);
  }
}
