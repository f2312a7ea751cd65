/**
 * Properties of the representational fairness metric, stated about its
 * reference value Fairness; RepresentationalFairness is proved equal to it.
 */
module FairnessProperties {
  import opened Wrappers
  import opened Classes
  import opened Metrics

  /** Counting over a concatenation adds the counts of the parts. */
  lemma {:induction false} TallyAppend(a: seq<District>, b: seq<District>, side: Side)
    ensures Tally(a + b, side) == Tally(a, side) + Tally(b, side)
    decreases |b|
  {
    if b == [] {
      assert a + b == a;
    } else {
      var last := b[|b| - 1];
      var init := b[..|b| - 1];
      assert (a + b)[..|a + b| - 1] == a + init;
      TallyAppend(a, init, side);
    }
  }

  /** The indices of the districts in `ds` that favour `side`. */
  ghost function Favouring(ds: seq<District>, side: Side): set<int>
  {
    set i | 0 <= i < |ds| && Lean(ds[i]) == side
  }

  /**
   * The recursive count is the number of districts that favour `side`:
   * the counters of the original are the sizes of these index sets.
   */
  lemma {:induction false} TallyCountsFavouringDistricts(ds: seq<District>, side: Side)
    ensures Tally(ds, side) == |Favouring(ds, side)|
  {
    if ds == [] {
      assert Favouring(ds, side) == {};
    } else {
      var n := |ds| - 1;
      var init := ds[..n];
      TallyCountsFavouringDistricts(init, side);
      var here := if Lean(ds[n]) == side then {n} else {};
      forall i | i in Favouring(ds, side)
        ensures i in Favouring(init, side) + here
      {
        if i < n { assert init[i] == ds[i]; }
      }
      forall i | i in Favouring(init, side) + here
        ensures i in Favouring(ds, side)
      {
        if i < n { assert init[i] == ds[i]; }
      }
      assert Favouring(ds, side) == Favouring(init, side) + here;
      assert n !in Favouring(init, side);
    }
  }


  /** A district that favours neither party leaves both counters unchanged wherever it stands. */
  lemma NeutralDistrictIgnored(a: seq<District>, d: District, b: seq<District>)
    requires Lean(d) == Neither
    ensures Tally(a + [d] + b, Democratic) == Tally(a + b, Democratic)
    ensures Tally(a + [d] + b, Republican) == Tally(a + b, Republican)
    ensures Fairness(a + [d] + b) == Fairness(a + b)
  {
    TallyAppend(a + [d], b, Democratic);
    TallyAppend(a + [d], b, Republican);
    TallyAppend(a, [d], Democratic);
    TallyAppend(a, [d], Republican);
    TallyAppend(a, b, Democratic);
    TallyAppend(a, b, Republican);
    assert [d][..0] == [];
  }

  /** A district missing its Democratic or Republican count contributes to neither counter. */
  lemma MissingCountIgnored(a: seq<District>, d: District, b: seq<District>)
    requires d.dem.None? || d.rep.None?
    ensures Tally(a + [d] + b, Democratic) == Tally(a + b, Democratic)
    ensures Tally(a + [d] + b, Republican) == Tally(a + b, Republican)
    ensures Fairness(a + [d] + b) == Fairness(a + b)
  {
    NeutralDistrictIgnored(a, d, b);
  }

  /** A district whose two counts are both zero contributes to neither counter. */
  lemma BothZeroIgnored(a: seq<District>, d: District, b: seq<District>)
    requires d.dem == Some(0) && d.rep == Some(0)
    ensures Tally(a + [d] + b, Democratic) == Tally(a + b, Democratic)
    ensures Tally(a + [d] + b, Republican) == Tally(a + b, Republican)
    ensures Fairness(a + [d] + b) == Fairness(a + b)
  {
    NeutralDistrictIgnored(a, d, b);
  }

  /** An exact tie contributes to neither counter. */
  lemma TieIgnored(a: seq<District>, d: District, b: seq<District>)
    requires d.dem.Some? && d.dem == d.rep
    ensures Tally(a + [d] + b, Democratic) == Tally(a + b, Democratic)
    ensures Tally(a + [d] + b, Republican) == Tally(a + b, Republican)
    ensures Fairness(a + [d] + b) == Fairness(a + b)
  {
    NeutralDistrictIgnored(a, d, b);
  }

  /**
   * Each district adds at most one to at most one counter, so the two
   * counters together never exceed the number of districts and the metric
   * lies between -n and n for a plan of n districts.
   */
  lemma {:induction false} FairnessBounded(ds: seq<District>)
    ensures Tally(ds, Democratic) + Tally(ds, Republican) <= |ds|
    ensures -|ds| <= Fairness(ds) <= |ds|
  {
    if ds != [] {
      FairnessBounded(ds[..|ds| - 1]);
    }
  }

  /** A plan with no district carrying a partisan signal, the empty plan included, scores 0. */
  lemma {:induction false} NoSignalScoresZero(ds: seq<District>)
    requires forall i :: 0 <= i < |ds| ==> !HasPartisanSignal(ds[i])
    ensures Tally(ds, Democratic) == 0 && Tally(ds, Republican) == 0
    ensures Fairness(ds) == 0
  {
    if ds != [] {
      NoSignalScoresZero(ds[..|ds| - 1]);
    }
  }

  /** The same district with its Democratic and Republican counts exchanged. */
  function SwapParties(d: District): (s: District)
    ensures NonNegativeCounts(s) == NonNegativeCounts(d)
    ensures HasPartisanSignal(s) == HasPartisanSignal(d)
  {
    d.(dem := d.rep, rep := d.dem)
  }

  /** Every district of the plan with its party counts exchanged, in the same order. */
  function SwapAll(ds: seq<District>): (r: seq<District>)
    ensures |r| == |ds|
    ensures (forall i :: 0 <= i < |ds| ==> NonNegativeCounts(ds[i])) ==>
              forall i :: 0 <= i < |r| ==> NonNegativeCounts(r[i])
  {
    seq(|ds|, i requires 0 <= i < |ds| => SwapParties(ds[i]))
  }

  /** Exchanging the parties twice gives back the original plan. */
  lemma SwapAllInvolution(ds: seq<District>)
    ensures SwapAll(SwapAll(ds)) == ds
  {
  }

  /** Exchanging the parties exchanges the district's lean. */
  lemma SwapFlipsLean(d: District)
    ensures Lean(SwapParties(d)) == match Lean(d)
      case Democratic => Republican
      case Republican => Democratic
      case Neither => Neither
  {
  }

  /** Exchanging the parties in every district negates the metric. */
  lemma {:induction false} SwapNegatesFairness(ds: seq<District>)
    ensures Tally(SwapAll(ds), Democratic) == Tally(ds, Republican)
    ensures Tally(SwapAll(ds), Republican) == Tally(ds, Democratic)
    ensures Fairness(SwapAll(ds)) == -Fairness(ds)
  {
    if ds != [] {
      var n := |ds| - 1;
      assert SwapAll(ds)[..n] == SwapAll(ds[..n]);
      SwapNegatesFairness(ds[..n]);
      SwapFlipsLean(ds[n]);
    }
  }

  /** Reordering the districts does not change either counter. */
  lemma {:induction false} TallyPermutationInvariant(a: seq<District>, b: seq<District>, side: Side)
    requires multiset(a) == multiset(b)
    ensures Tally(a, side) == Tally(b, side)
    decreases |a|
  {
    if a == [] {
      assert |b| == |multiset(b)| == 0;
    } else {
      var n := |a| - 1;
      var x := a[n];
      assert a == a[..n] + [x];
      assert x in multiset(b);
      var j :| 0 <= j < |b| && b[j] == x;
      var rest := b[..j] + b[j + 1..];
      assert b == b[..j] + [x] + b[j + 1..];
      assert multiset(a[..n]) == multiset(rest) by {
        calc {
          multiset(a[..n]);
          multiset(a) - multiset{x};
          multiset(b) - multiset{x};
          multiset(b[..j]) + multiset{x} + multiset(b[j + 1..]) - multiset{x};
          multiset(rest);
        }
      }
      TallyPermutationInvariant(a[..n], rest, side);
      TallyAppend(a[..n], [x], side);
      TallyAppend(b[..j] + [x], b[j + 1..], side);
      TallyAppend(b[..j], [x], side);
      TallyAppend(b[..j], b[j + 1..], side);
    }
  }

  /** The metric does not depend on the order of the plan's districts. */
  lemma FairnessPermutationInvariant(a: seq<District>, b: seq<District>)
    requires multiset(a) == multiset(b)
    ensures Fairness(a) == Fairness(b)
  {
    TallyPermutationInvariant(a, b, Democratic);
    TallyPermutationInvariant(a, b, Republican);
  }

  /**
   * Districts of 60/40, 30/70 and 50/50 favour the Democrats once, the
   * Republicans once, and neither once: the plan is scored fair.
   */
  lemma BalancedPlanScoresZero()
    ensures Tally([NewDistrict(100, 60, 40), NewDistrict(100, 30, 70), NewDistrict(100, 50, 50)], Democratic) == 1
    ensures Tally([NewDistrict(100, 60, 40), NewDistrict(100, 30, 70), NewDistrict(100, 50, 50)], Republican) == 1
    ensures Fairness([NewDistrict(100, 60, 40), NewDistrict(100, 30, 70), NewDistrict(100, 50, 50)]) == 0
  {
    var ds := [NewDistrict(100, 60, 40), NewDistrict(100, 30, 70), NewDistrict(100, 50, 50)];
    assert Lean(ds[0]) == Democratic && Lean(ds[1]) == Republican && Lean(ds[2]) == Neither;
    assert ds[..2][..1] == ds[..1] && ds[..1][..0] == [];
    assert Tally(ds[..1], Democratic) == 1 && Tally(ds[..1], Republican) == 0;
    assert Tally(ds[..2], Democratic) == 1 && Tally(ds[..2], Republican) == 1;
  }
}
