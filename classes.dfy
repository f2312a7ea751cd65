/**
 * The data model of mander/classes.py: a District carries its vote
 * counts, a Plan is the ordered list of Districts that forms one
 * redistricting proposal.
 *
 * The geometry handle and the area and perimeter that the original derives
 * from it through the geometry library are not part of this model.
 */
module Classes {
  import opened Wrappers

  /**
   * One electoral district's vote counts.
   *
   * The District constructor stores its counts as `dem_votes` and
   * `rep_votes`, while the fairness metric reads attributes named
   * `democratic` and `republican` and treats either one as possibly
   * absent. The model keeps a single pair of vote fields, `dem` and `rep`,
   * and makes them optional so that the metric's "missing count" rule can
   * be stated; a District built by NewDistrict always has both.
   */
  datatype District = District(totalVotes: int, dem: Option<int>, rep: Option<int>)

  /** A District has both party counts present. */
  predicate HasBothCounts(d: District)
  {
    d.dem.Some? && d.rep.Some?
  }

  /**
   * District construction: each count defaults to 0 when not supplied and is
   * stored as given (the original coerces it to an integer, which is the
   * identity on the integers taken here). No relation between the three
   * counts is checked: any integer triple, dem + rep > total or negative
   * counts included, yields a District, and it always has both party counts.
   */
  function NewDistrict(totalVotes: int := 0, demVotes: int := 0, repVotes: int := 0): (d: District)
    ensures d.totalVotes == totalVotes
    ensures d.dem == Some(demVotes) && d.rep == Some(repVotes)
  {
    District(totalVotes, Some(demVotes), Some(repVotes))
  }

  /** A District built with no counts supplied holds zero for all three. */
  lemma DefaultDistrictIsZero()
    ensures NewDistrict() == District(0, Some(0), Some(0))
  {
  }

  /**
   * A redistricting plan. The district sequence is fixed at construction and
   * never reassigned; Districts are values, so building a Plan cannot alter
   * the Districts passed in.
   */
  class Plan {
    const districts: seq<District>

    /** Keeps the districts in the order and number they were supplied. */
    constructor (districtList: seq<District>)
      ensures districts == districtList
    {
      districts := districtList;
    }

    /** Hands back exactly the stored district sequence; changes nothing. */
    method GetDistricts() returns (ds: seq<District>)
      ensures ds == districts
    {
      ds := districts;
    }
  }
}
