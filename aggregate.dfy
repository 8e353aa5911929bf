/**
  The two aggregations behind the pie chart. Both read the whole table, never
  the payload-filtered one: the per-site success count (group by site and sum
  `class`) and, for one site, the number of launches per `class` value.
*/
module Aggregate {
  import opened Collections
  import opened Records
  import opened Filter

  /**
    Group by `Launch Site` and sum `class`: one entry per site that occurs.
    `SuccessBySiteAt` gives the value of each entry.
  */
  function SuccessBySite(ds: Dataset): (m: map<string, int>)
    ensures m.Keys == SitesOf(ds)
  {
    if ds == [] then map[]
    else
      var rest := SuccessBySite(ds[1..]);
      rest[ds[0].site := Get(rest, ds[0].site) + ds[0].outcome]
  }

  /**
    The entry of a site is the sum of `class` over that site's records, and
    a site with no records reads as 0.
  */
  lemma {:induction false} SuccessBySiteAt(ds: Dataset, site: string)
    ensures Get(SuccessBySite(ds), site) == SumClass(SiteFilter(ds, site))
  {
    if ds != [] {
      SuccessBySiteAt(ds[1..], site);
      var rest := SiteFilter(ds[1..], site);
      if ds[0].site == site {
        assert ([ds[0]] + rest)[1..] == rest;
      }
    }
  }

  /**
    `value_counts` of the `class` column: one entry per outcome that occurs,
    holding how many records have it, so never zero.
  */
  function ValueCounts(rs: Dataset): (m: map<int, int>)
    ensures m.Keys == OutcomesOf(rs)
    ensures forall c :: c in m ==> m[c] == CountOutcome(rs, c) && m[c] >= 1
  {
    if rs == [] then map[]
    else
      var rest := ValueCounts(rs[1..]);
      rest[rs[0].outcome := Get(rest, rs[0].outcome) + 1]
  }

  /** The single-site view: `value_counts` over the site's records, whatever their payload. */
  function OutcomeCounts(ds: Dataset, site: string): (m: map<int, int>)
    ensures m.Keys == OutcomesOf(SiteFilter(ds, site))
    ensures forall c :: c in m ==> m[c] == CountOutcome(SiteFilter(ds, site), c) && m[c] >= 1
  {
    ValueCounts(SiteFilter(ds, site))
  }

  /**
    Over any duplicate-free list naming every site, the per-site success
    counts add up to the sum of `class` over the whole table.
  */
  lemma {:induction false} SuccessBySiteTotal(ds: Dataset, sites: seq<string>)
    requires Distinct(sites)
    requires forall s :: s in SitesOf(ds) ==> s in sites
    ensures SumAt(SuccessBySite(ds), sites) == SumClass(ds)
  {
    if ds == [] {
      SumAtEmpty(sites);
    } else {
      SitesOfCons(ds);
      SuccessBySiteTotal(ds[1..], sites);
      SumAtAdd(SuccessBySite(ds[1..]), ds[0].site, ds[0].outcome, sites);
    }
  }

  /**
    Over any duplicate-free list naming every outcome present, the counts of
    `value_counts` add up to the number of records counted.
  */
  lemma {:induction false} ValueCountsTotal(rs: Dataset, outcomes: seq<int>)
    requires Distinct(outcomes)
    requires forall c :: c in OutcomesOf(rs) ==> c in outcomes
    ensures SumAt(ValueCounts(rs), outcomes) == |rs|
  {
    if rs == [] {
      SumAtEmpty(outcomes);
    } else {
      SitesOfCons(rs);
      ValueCountsTotal(rs[1..], outcomes);
      SumAtAdd(ValueCounts(rs[1..]), rs[0].outcome, 1, outcomes);
    }
  }

  /** The site mask keeps the table invariant. */
  lemma SiteFilterWellFormed(ds: Dataset, site: string)
    requires WellFormed(ds)
    ensures WellFormed(SiteFilter(ds, site))
  {
    var rs := SiteFilter(ds, site);
    SiteFilterSpec(ds, site);
    forall r | r in rs ensures r in ds {
      assert r in multiset(rs);
    }
  }

  /**
    On a well-formed table the single-site counts sit only at 0 and 1, and
    failures plus successes is the number of the site's launches.
  */
  lemma OutcomeCountsPartition(ds: Dataset, site: string)
    requires WellFormed(ds)
    ensures OutcomeCounts(ds, site).Keys <= {0, 1}
    ensures Get(OutcomeCounts(ds, site), 0) + Get(OutcomeCounts(ds, site), 1) == |SiteFilter(ds, site)|
  {
    var rs := SiteFilter(ds, site);
    var m := ValueCounts(rs);
    SiteFilterWellFormed(ds, site);
    forall c | c in OutcomesOf(rs) ensures c in [0, 1] {
      var r :| r in rs && r.outcome == c;
    }
    assert Distinct([0, 1]) by {
      assert [0, 1][1..] == [1];
    }
    ValueCountsTotal(rs, [0, 1]);
    calc {
      SumAt(m, [0, 1]);
      Get(m, 0) + SumAt(m, [0, 1][1..]);
      { assert [0, 1][1..] == [1]; }
      Get(m, 0) + SumAt(m, [1]);
      Get(m, 0) + Get(m, 1);
    }
  }

  /**
    The two pie views agree: on a well-formed table a site's success wedge in
    the single-site view equals its entry in the all-sites view (0 for a
    site that never launched).
  */
  lemma SuccessCountsAgree(ds: Dataset, site: string)
    requires WellFormed(ds)
    ensures Get(OutcomeCounts(ds, site), 1) == Get(SuccessBySite(ds), site)
  {
    SiteFilterWellFormed(ds, site);
    SumClassCountsSuccesses(SiteFilter(ds, site));
    SuccessBySiteAt(ds, site);
  }
}
