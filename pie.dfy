/**
  The pie-chart callback (`update_pie_chart`) as data: the dropdown value
  picks one of two views, both computed from the whole table. The slider is
  not an input, so no payload range can change the pie. Figure construction
  (colours, titles, labels) is not modelled.
*/
module Pie {
  import opened Collections
  import opened Records
  import opened Filter
  import opened Aggregate
  import opened Sites

  /**
    For "ALL", one wedge per site sized by its success count; for one
    site, one wedge per outcome value sized by its number of launches.
  */
  datatype PieChart =
    | SitesPie(siteWedges: map<string, int>)
    | OutcomePie(site: string, outcomeWedges: map<int, int>)

  function UpdatePieChart(ds: Dataset, selectedSite: string): (p: PieChart)
    ensures p.SitesPie? <==> selectedSite == ALL_SITES
    ensures p.SitesPie? ==> p.siteWedges.Keys == SitesOf(ds)
    ensures p.SitesPie? ==> forall s :: Get(p.siteWedges, s) == SumClass(SiteFilter(ds, s))
    ensures p.OutcomePie? ==> p.site == selectedSite
    ensures p.OutcomePie? ==> p.outcomeWedges.Keys == OutcomesOf(SiteFilter(ds, selectedSite))
    ensures p.OutcomePie? ==> forall c :: Get(p.outcomeWedges, c) == CountOutcome(SiteFilter(ds, selectedSite), c)
  {
    if selectedSite == ALL_SITES then
      assert forall s :: Get(SuccessBySite(ds), s) == SumClass(SiteFilter(ds, s)) by {
        forall s ensures Get(SuccessBySite(ds), s) == SumClass(SiteFilter(ds, s)) {
          SuccessBySiteAt(ds, s);
        }
      }
      SitesPie(SuccessBySite(ds))
    else
      OutcomePie(selectedSite, OutcomeCounts(ds, selectedSite))
  }

  /**
    The all-sites pie has one wedge per entry of `launch_sites`, and its
    wedges add up to the number of successes in the whole table.
  */
  lemma AllSitesPieTotal(ds: Dataset)
    ensures forall s :: s in LaunchSites(ds) <==> s in UpdatePieChart(ds, ALL_SITES).siteWedges
    ensures SumAt(UpdatePieChart(ds, ALL_SITES).siteWedges, LaunchSites(ds)) == SumClass(ds)
  {
    LaunchSitesDistinct(ds);
    SuccessBySiteTotal(ds, LaunchSites(ds));
  }

  /**
    On a well-formed table a single-site pie has at most the wedges 0 and 1,
    and together they count every launch of that site.
  */
  lemma SitePieTotal(ds: Dataset, site: string)
    requires WellFormed(ds) && site != ALL_SITES
    ensures UpdatePieChart(ds, site).outcomeWedges.Keys <= {0, 1}
    ensures Get(UpdatePieChart(ds, site).outcomeWedges, 0) + Get(UpdatePieChart(ds, site).outcomeWedges, 1)
         == |SiteFilter(ds, site)|
  {
    OutcomeCountsPartition(ds, site);
  }

  /**
    The single-site pie counts every launch of the site, including those the
    scatter chart's payload range leaves out; the two agree exactly when the
    range covers all of the site's payloads.
  */
  lemma SitePieIgnoresPayloadRange(ds: Dataset, site: string, range: PayloadRange)
    requires WellFormed(ds) && site != ALL_SITES
    ensures |GetFilteredData(ds, site, range)|
         <= Get(UpdatePieChart(ds, site).outcomeWedges, 0) + Get(UpdatePieChart(ds, site).outcomeWedges, 1)
    ensures (forall i :: 0 <= i < |ds| && ds[i].site == site ==> InRange(ds[i], range)) <==>
      |GetFilteredData(ds, site, range)|
         == Get(UpdatePieChart(ds, site).outcomeWedges, 0) + Get(UpdatePieChart(ds, site).outcomeWedges, 1)
  {
    OutcomeCountsPartition(ds, site);
    var bySite := SiteFilter(ds, site);
    SiteFilterSpec(ds, site);
    FilterMasksCommute(ds, site, range);
    SubsequenceLength(PayloadFilter(bySite, range), bySite);
    if forall i :: 0 <= i < |ds| && ds[i].site == site ==> InRange(ds[i], range) {
      forall i | 0 <= i < |bySite| ensures InRange(bySite[i], range) {
        assert bySite[i] in multiset(bySite);
        var j :| 0 <= j < |ds| && ds[j] == bySite[i];
      }
      PayloadFilterKeepsAll(bySite, range);
    }
    if |PayloadFilter(bySite, range)| == |bySite| {
      SiteCoveredWhenNothingDropped(ds, site, range);
    }
  }

  /** If the payload mask drops none of a site's records, all of them are in range. */
  lemma SiteCoveredWhenNothingDropped(ds: Dataset, site: string, range: PayloadRange)
    requires |PayloadFilter(SiteFilter(ds, site), range)| == |SiteFilter(ds, site)|
    ensures forall i :: 0 <= i < |ds| && ds[i].site == site ==> InRange(ds[i], range)
  {
    var bySite := SiteFilter(ds, site);
    SiteFilterSpec(ds, site);
    PayloadFilterFullLength(bySite, range);
    forall i | 0 <= i < |ds| && ds[i].site == site ensures InRange(ds[i], range) {
      assert ds[i] in multiset(ds);
      assert ds[i] in multiset(bySite);
      var j :| 0 <= j < |bySite| && bySite[j] == ds[i];
    }
  }

  /** A label that names no launch gives an empty single-site pie, not an error. */
  lemma UnknownSitePieEmpty(ds: Dataset, site: string)
    requires site != ALL_SITES && site !in SitesOf(ds)
    ensures UpdatePieChart(ds, site) == OutcomePie(site, map[])
  {
    SiteFilterSpec(ds, site);
  }

  /**
    Two sites, A with two successes and a failure, B with one of each: the
    all-sites pie is {A: 2, B: 1} and the pie for A is {1: 2, 0: 1}.
  */
  lemma TwoSiteScenario()
    ensures UpdatePieChart(Scenario(), ALL_SITES).siteWedges.Keys == {"A", "B"}
    ensures Get(UpdatePieChart(Scenario(), ALL_SITES).siteWedges, "A") == 2
    ensures Get(UpdatePieChart(Scenario(), ALL_SITES).siteWedges, "B") == 1
    ensures UpdatePieChart(Scenario(), "A").outcomeWedges.Keys == {0, 1}
    ensures Get(UpdatePieChart(Scenario(), "A").outcomeWedges, 1) == 2
    ensures Get(UpdatePieChart(Scenario(), "A").outcomeWedges, 0) == 1
  {
    var ds := Scenario();
    ScenarioSiteFilters();
    ScenarioLabels();
    var r0, r1, r2, r3, r4 := ds[0], ds[1], ds[2], ds[3], ds[4];
    assert r0.outcome == 1 && r1.outcome == 1 && r2.outcome == 1 && r3.outcome == 0 && r4.outcome == 0;
    var a, b := [r0, r1, r3], [r2, r4];
    assert a[1..] == [r1, r3] && [r1, r3][1..] == [r3] && [r3][1..] == [] && b[1..] == [r4] && [r4][1..] == [];
    assert SumClass(a) == 1 + SumClass([r1, r3]) == 2 + SumClass([r3]) == 2 + SumClass([]) == 2;
    assert SumClass(b) == 1 + SumClass([r4]) == 1 + SumClass([]) == 1;
    assert CountOutcome(a, 1) == 1 + CountOutcome([r1, r3], 1) == 2 + CountOutcome([r3], 1) == 2;
    assert CountOutcome(a, 0) == CountOutcome([r1, r3], 0) == CountOutcome([r3], 0) == 1 + CountOutcome([], 0) == 1;
    var all := UpdatePieChart(ds, ALL_SITES).siteWedges;
    assert all.Keys == {"A", "B"};
    assert Get(all, "A") == SumClass(SiteFilter(ds, "A")) == SumClass(a) == 2;
    assert Get(all, "B") == SumClass(SiteFilter(ds, "B")) == SumClass(b) == 1;
    var one := UpdatePieChart(ds, "A").outcomeWedges;
    assert one.Keys == {0, 1};
    assert Get(one, 1) == CountOutcome(SiteFilter(ds, "A"), 1) == CountOutcome(a, 1);
    assert Get(one, 0) == CountOutcome(SiteFilter(ds, "A"), 0) == CountOutcome(a, 0);
  }

  lemma ScenarioSiteFilters()
    ensures SiteFilter(Scenario(), "A") == [Scenario()[0], Scenario()[1], Scenario()[3]]
    ensures SiteFilter(Scenario(), "B") == [Scenario()[2], Scenario()[4]]
  {
    var ds := Scenario();
    var r0, r1, r2, r3, r4 := ds[0], ds[1], ds[2], ds[3], ds[4];
    assert r0.site == "A" && r1.site == "A" && r2.site == "B" && r3.site == "A" && r4.site == "B";
    assert ds[1..] == [r1, r2, r3, r4] && ds[1..][1..] == [r2, r3, r4];
    assert [r2, r3, r4][1..] == [r3, r4] && [r3, r4][1..] == [r4] && [r4][1..] == [];
    assert SiteFilter([], "A") == [] && SiteFilter([], "B") == [];
    assert SiteFilter([r4], "A") == SiteFilter([r4][1..], "A") == [];
    assert SiteFilter([r4], "B") == [r4] + SiteFilter([r4][1..], "B") == [r4];
    assert SiteFilter([r3, r4], "A") == [r3] + SiteFilter([r3, r4][1..], "A") == [r3];
    assert SiteFilter([r3, r4], "B") == SiteFilter([r3, r4][1..], "B") == [r4];
    assert SiteFilter([r2, r3, r4], "A") == SiteFilter([r2, r3, r4][1..], "A") == [r3];
    assert SiteFilter([r2, r3, r4], "B") == [r2] + SiteFilter([r2, r3, r4][1..], "B") == [r2, r4];
    assert SiteFilter(ds[1..], "A") == [r1] + SiteFilter(ds[1..][1..], "A") == [r1, r3];
    assert SiteFilter(ds[1..], "B") == SiteFilter(ds[1..][1..], "B") == [r2, r4];
    assert SiteFilter(ds, "A") == [r0] + SiteFilter(ds[1..], "A") == [r0, r1, r3];
    assert SiteFilter(ds, "B") == SiteFilter(ds[1..], "B") == [r2, r4];
  }

  lemma ScenarioLabels()
    ensures SitesOf(Scenario()) == {"A", "B"}
    ensures OutcomesOf([Scenario()[0], Scenario()[1], Scenario()[3]]) == {0, 1}
  {
    var ds := Scenario();
    assert ds[0] in ds && ds[2] in ds;
    var a := [ds[0], ds[1], ds[3]];
    assert a[0] in a && a[2] in a;
  }

  function Scenario(): Dataset {
    [ Record("A", 500.0, 1, "F9 v1.0", "v1.0"),
      Record("A", 2500.0, 1, "F9 FT", "FT"),
      Record("B", 4000.0, 1, "F9 B4", "B4"),
      Record("A", 6000.0, 0, "F9 v1.1", "v1.1"),
      Record("B", 9600.0, 0, "F9 B5", "B5") ]
  }
}
