/**
 * The representational fairness metric of mander/metrics.py.
 *
 * Each district whose two party counts are present and not both zero is
 * classified by its partisan indices: Democratic-favoured when the
 * Democratic index exceeds one half, otherwise Republican-favoured when the
 * Republican index does. The metric is the number of Democratic-favoured
 * districts minus the number of Republican-favoured ones.
 *
 * The original computes the indices in binary floating point. Here they are
 * exact reals. The two agree on every comparison with 0.5 as long as
 * dem + rep < 2^52: the conversions and the sum are then exact, and when
 * dem != rep the exact quotient lies at least 1/(2(dem + rep)) > 2^-53 away
 * from 0.5, more than half a unit in the last place near 0.5, so rounding
 * cannot carry it onto or across 0.5.
 */
module Metrics {
  import opened Wrappers
  import opened Classes

  /** Which party a district favours, if any. */
  datatype Side = Democratic | Republican | Neither

  /** The party's share of the two-party vote: party / (other + party). */
  function PartisanIndex(party: int, other: int): (index: real)
    requires other + party != 0
    ensures index * (other + party) as real == party as real
    ensures party >= 0 && other >= 0 ==> 0.0 <= index <= 1.0
  {
    party as real / (other + party) as real
  }

  /** Both counts present and not both zero: the district carries a partisan signal. */
  predicate HasPartisanSignal(d: District): (signal: bool)
    ensures signal ==> HasBothCounts(d)
    ensures signal && NonNegativeCounts(d) ==> d.dem.value + d.rep.value > 0
    ensures HasBothCounts(d) && !signal ==> d.dem.value == 0 && d.rep.value == 0
  {
    HasBothCounts(d) && !(d.dem.value == 0 && d.rep.value == 0)
  }

  /** Vote counts, where present, are not negative. */
  predicate NonNegativeCounts(d: District)
  {
    (d.dem.Some? ==> d.dem.value >= 0) && (d.rep.Some? ==> d.rep.value >= 0)
  }

  /**
   * The reference classification in integer terms: a district with a
   * partisan signal favours the party with strictly more votes; a tie and a
   * district without a signal favour neither.
   */
  function Lean(d: District): (side: Side)
  {
    if !HasPartisanSignal(d) then Neither
    else if d.dem.value > d.rep.value then Democratic
    else if d.rep.value > d.dem.value then Republican
    else Neither
  }

  /** The number of districts in `ds` that favour `side`. */
  function Tally(ds: seq<District>, side: Side): (count: nat)
  {
    if ds == [] then 0
    else Tally(ds[..|ds| - 1], side) + (if Lean(ds[|ds| - 1]) == side then 1 else 0)
  }

  /** The reference value of the metric: Democratic-favoured minus Republican-favoured. */
  function Fairness(ds: seq<District>): (score: int)
  {
    Tally(ds, Democratic) - Tally(ds, Republican)
  }

  /**
   * For non-negative counts with a positive sum, a party's index exceeds one
   * half exactly when the party has strictly more votes than the other.
   */
  lemma IndexAboveHalfIffMajority(party: int, other: int)
    requires party >= 0 && other >= 0 && party + other > 0
    ensures PartisanIndex(party, other) > 0.5 <==> party > other
  {
    // The steps below spell out the nonlinear reasoning so that the proof
    // does not depend on the solver finding it on its own.
    var p, o := party as real, other as real;
    var s := o + p;
    var q := PartisanIndex(party, other);
    assert q == p / s;
    var d := q - 0.5;
    assert d * s == q * s - 0.5 * s;
    // (q - 0.5) * s == p - (o + p) / 2 == (p - o) / 2
    assert d * s == 0.5 * (p - o);
    ScaleBySumKeepsSign(d, s);
  }

  /** Multiplying by a positive sum keeps the sign (a step of IndexAboveHalfIffMajority). */
  lemma ScaleBySumKeepsSign(x: real, s: real)
    requires s > 0.0
    ensures x > 0.0 <==> x * s > 0.0
  {
  }

  /**
   * The metric over a plan whose counts are non-negative. The loop follows
   * the original: skip a district with a missing count, skip one with both
   * counts zero, then count it for the Democrats when their index exceeds
   * one half and otherwise for the Republicans when theirs does.
   */
  method RepresentationalFairness(plan: Plan) returns (result: int)
    requires forall i :: 0 <= i < |plan.districts| ==> NonNegativeCounts(plan.districts[i])
    ensures result == Fairness(plan.districts)
  {
    var districts := plan.GetDistricts();
    var dems: nat := 0;
    var reps: nat := 0;
    for i := 0 to |districts|
      invariant dems == Tally(districts[..i], Democratic)
      invariant reps == Tally(districts[..i], Republican)
    {
      var district := districts[i];
      assert districts[..i + 1][..i] == districts[..i];
      var dem := district.dem;
      var rep := district.rep;
      if dem.None? || rep.None? {
        continue;
      }
      if dem.value == 0 && rep.value == 0 {
        continue;
      }
      var demPi := PartisanIndex(dem.value, rep.value);
      IndexAboveHalfIffMajority(dem.value, rep.value);
      if demPi > 0.5 {
        dems := dems + 1;
      } else {
        var repPi := PartisanIndex(rep.value, dem.value);
        IndexAboveHalfIffMajority(rep.value, dem.value);
        if repPi > 0.5 {
          reps := reps + 1;
        }
      }
    }
    assert districts[..|districts|] == districts;
    result := dems - reps;
  }
}
