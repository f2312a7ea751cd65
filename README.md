# mander representational fairness, in Dafny

This project models the vote-based core of `mander`, a library that scores
electoral redistricting plans:

- `classes.dfy` (module `Classes`): a `District` holds a total vote count and
  the Democratic and Republican counts; a `Plan` is a class holding the ordered
  sequence of Districts it was built from and hands it back unchanged.
- `metrics.dfy` (module `Metrics`): the representational fairness metric. The
  method `RepresentationalFairness` follows the original loop: it skips districts
  with a missing count, skips districts where both counts are zero, then counts a
  district as Democratic-favoured when the Democratic partisan index
  `dem / (rep + dem)` exceeds 0.5, else as Republican-favoured when the
  Republican index does, and returns the difference of the two counters. It is
  proved equal to a reference definition in integer terms, `Fairness`, the number
  of districts whose leading party is Democratic minus the number whose is
  Republican. The link is `IndexAboveHalfIffMajority`: for non-negative counts
  with a positive sum, an index exceeds one half exactly when that party has
  more votes.
- `fairness_properties.dfy` (module `FairnessProperties`): what the metric
  promises, proved of `Fairness`. The skip rules and the tie rule each leave the
  score unchanged wherever the district stands. The score is bounded by the
  number of districts and is 0 when no district carries a signal. Swapping the
  parties negates it. Reordering the districts does not change it.
- `wrappers.dfy` (module `Wrappers`): the `Option` type used for vote counts.

The District constructor stores its counts as `dem_votes` and `rep_votes`, but
the metric reads `democratic` and `republican` and allows either to be `None`.
As written, the metric applied to the library's own Districts would therefore
fail with a missing-attribute error at the first district. The model covers the
evidently intended pairing: one pair of optional fields, `dem` and `rep`, that
the constructor writes and the metric reads.

Partisan indices are exact reals here. The original uses binary floating point.
The comment at the head of `metrics.dfy` argues that the two agree on every
comparison with 0.5 while `dem + rep < 2^52`.

## Model

| member | source | states |
|---|---|---|
| Classes.NewDistrict | mander/classes.py:5-10 | vote counts default to 0 and are stored as given, whatever their relation to each other, so both party counts are present |
| Classes.DefaultDistrictIsZero | mander/classes.py:5 | a District built with no counts holds 0 total, 0 Democratic and 0 Republican votes |
| Classes.Plan.constructor | mander/classes.py:16-17 | the plan keeps exactly the supplied districts, in order and number |
| Classes.Plan.GetDistricts | mander/classes.py:19-20 | returns exactly the stored district sequence and changes no state |
| Metrics.RepresentationalFairness | mander/metrics.py:19-52 | for non-negative counts the loop never divides by zero and returns Democratic-favoured minus Republican-favoured districts, as given by the reference `Fairness` |
| Metrics.PartisanIndex | mander/metrics.py:43-47 | the index is the party's share of the two-party vote: times the two-party total it gives the party's votes, and it lies in [0, 1] for non-negative counts |
| Metrics.HasPartisanSignal | mander/metrics.py:34-41 | a district passing both skip rules has both counts, and with non-negative counts a positive two-party total, so the divisions cannot fault; one with both counts that fails it has both counts zero |
| Metrics.IndexAboveHalfIffMajority | mander/metrics.py:43-48 | with non-negative counts and a positive sum, a party's index exceeds 0.5 exactly when it has more votes than the other party |
| FairnessProperties.TallyCountsFavouringDistricts | mander/metrics.py:28-51 | each counter equals the number of districts that favour its party, as a set of district positions |
| FairnessProperties.NeutralDistrictIgnored | mander/metrics.py:30-49 | a district favouring neither party leaves both counters, and so the score, unchanged wherever it is inserted |
| FairnessProperties.MissingCountIgnored | mander/metrics.py:34-35 | a district missing its Democratic or Republican count leaves both counters, and so the score, unchanged wherever it stands |
| FairnessProperties.BothZeroIgnored | mander/metrics.py:40-41 | a district with both counts zero leaves both counters, and so the score, unchanged wherever it stands |
| FairnessProperties.TieIgnored | mander/metrics.py:43-49 | a district with equal counts leaves both counters, and so the score, unchanged wherever it stands |
| FairnessProperties.FairnessBounded | mander/metrics.py:28-51 | the two counters together never exceed the number of districts, so the score lies in [-n, n] |
| FairnessProperties.NoSignalScoresZero | mander/metrics.py:28-51 | a plan where no district has both counts present and not both zero, the empty plan included, scores 0 with both counters 0 |
| FairnessProperties.SwapFlipsLean | mander/metrics.py:43-49 | exchanging a district's two counts exchanges the party it favours and keeps a neutral district neutral |
| FairnessProperties.SwapNegatesFairness | mander/metrics.py:43-51 | exchanging the counts in every district exchanges the two counters and negates the score |
| FairnessProperties.SwapAllInvolution | mander/metrics.py:43-51 | exchanging the parties twice gives back the original plan, so the negation of the score runs both ways |
| FairnessProperties.TallyAppend | mander/metrics.py:30-49 | counting over two consecutive runs of districts adds the counts of the runs |
| FairnessProperties.TallyPermutationInvariant | mander/metrics.py:30-49 | each counter is the same for any reordering of the districts |
| FairnessProperties.FairnessPermutationInvariant | mander/metrics.py:30-52 | the score does not depend on the order of the plan's districts |
| FairnessProperties.BalancedPlanScoresZero | mander/metrics.py:43-52 | districts at 60/40, 30/70 and 50/50 give a Democratic-favoured count of 1 and a Republican-favoured count of 1 (the tie counts for neither), so the plan scores 0 |

## Left out

- Metrics.RepresentationalFairness: requires every present count to be non-negative. With a negative count the original can reach a zero denominator past both skip rules (Democratic 1, Republican -1) and raise a division-by-zero error. The model states no result for such plans.
- Floating-point rounding of the partisan indices: exact reals are used; they agree with doubles on the comparison with 0.5 while `dem + rep < 2^52`.
- Geometry: the District's geometry handle and the area and perimeter computed from it by the geometry library are foreign calls on real-valued geometry and are not modelled.
- The pandas `Series` that holds a Plan's districts is modelled as a plain sequence.
- Integer coercion of District vote counts: the model takes integers, on which the coercion is the identity. Coercion of other values, and its failure on non-numeric input, is not modelled.
- The module docstring describes the result as an absolute value paired with the favoured party. The code returns the signed difference, and that is what is modelled.
- Competitiveness, split counting and the convex-hull ratio are not part of this model. Their source is not among the modelled files, and the convex-hull ratio depends on a geometry engine.
