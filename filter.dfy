/**
  The range-and-site filter behind the scatter chart (`get_filtered_data`):
  keep the launches whose payload lies in the slider's closed interval and,
  unless the dropdown holds the sentinel "ALL", only those of the chosen site.
*/
module Filter {
  import opened Collections
  import opened Records

  /** The dropdown value that stands for every site. */
  const ALL_SITES: string := "ALL"

  /** The two slider handles, `payload_range[0]` and `payload_range[1]`. */
  datatype PayloadRange = PayloadRange(low: real, high: real)

  /** Both bounds are inclusive. */
  predicate InRange(r: Record, range: PayloadRange) {
    range.low <= r.payload <= range.high
  }

  /** The records `get_filtered_data` is meant to return. */
  predicate Selected(r: Record, selectedSite: string, range: PayloadRange) {
    InRange(r, range) && (selectedSite == ALL_SITES || r.site == selectedSite)
  }

  /** The payload mask: the records in `range`, in table order. */
  function PayloadFilter(ds: Dataset, range: PayloadRange): (rs: Dataset)
    ensures forall i :: 0 <= i < |rs| ==> InRange(rs[i], range)
    ensures IsSubsequence(rs, ds)
    ensures forall x :: multiset(rs)[x] == if InRange(x, range) then multiset(ds)[x] else 0
  {
    if ds == [] then []
    else
      assert ds == [ds[0]] + ds[1..];
      var rest := PayloadFilter(ds[1..], range);
      if InRange(ds[0], range) then
        assert ([ds[0]] + rest)[1..] == rest;
        [ds[0]] + rest
      else rest
  }

  /** The site mask: the records launched from `site`, in table order. */
  function SiteFilter(ds: Dataset, site: string): (rs: Dataset)
    ensures forall i :: 0 <= i < |rs| ==> rs[i].site == site
  {
    if ds == [] then []
    else if ds[0].site == site then [ds[0]] + SiteFilter(ds[1..], site)
    else SiteFilter(ds[1..], site)
  }

  /**
    The site mask keeps exactly the records of `site`, each as often as in
    the table, in table order, and comes out empty exactly when the site
    never launched.
  */
  lemma {:induction false} SiteFilterSpec(ds: Dataset, site: string)
    ensures IsSubsequence(SiteFilter(ds, site), ds)
    ensures forall x :: multiset(SiteFilter(ds, site))[x] == if x.site == site then multiset(ds)[x] else 0
    ensures SiteFilter(ds, site) == [] <==> site !in SitesOf(ds)
  {
    if ds != [] {
      SiteFilterSpec(ds[1..], site);
      SitesOfCons(ds);
      assert ds == [ds[0]] + ds[1..];
      var rest := SiteFilter(ds[1..], site);
      if ds[0].site == site {
        assert ([ds[0]] + rest)[1..] == rest;
      }
    }
  }

  /**
    `get_filtered_data`: the payload mask first, then the site mask unless
    the sentinel is selected. The result is exactly the selected records,
    each as often as in the table and in table order.
  */
  function GetFilteredData(ds: Dataset, selectedSite: string, range: PayloadRange): (rs: Dataset)
    ensures forall i :: 0 <= i < |rs| ==> InRange(rs[i], range)
    ensures selectedSite != ALL_SITES ==> forall i :: 0 <= i < |rs| ==> rs[i].site == selectedSite
    ensures IsSubsequence(rs, ds)
    ensures forall x :: multiset(rs)[x] == if Selected(x, selectedSite, range) then multiset(ds)[x] else 0
  {
    var byPayload := PayloadFilter(ds, range);
    if selectedSite != ALL_SITES then
      var bySite := SiteFilter(byPayload, selectedSite);
      SiteFilterSpec(byPayload, selectedSite);
      SubsequenceTransitive(bySite, byPayload, ds);
      bySite
    else byPayload
  }

  /** Nothing selected gives the empty table, not an error. */
  lemma FilterEmptyWhenNothingSelected(ds: Dataset, selectedSite: string, range: PayloadRange)
    requires forall i :: 0 <= i < |ds| ==> !Selected(ds[i], selectedSite, range)
    ensures GetFilteredData(ds, selectedSite, range) == []
  { }

  /** A slider whose low handle exceeds its high handle selects nothing. */
  lemma FilterEmptyWhenRangeInverted(ds: Dataset, selectedSite: string, range: PayloadRange)
    requires range.low > range.high
    ensures GetFilteredData(ds, selectedSite, range) == []
  {
    FilterEmptyWhenNothingSelected(ds, selectedSite, range);
  }

  /** A one-point range with no payload exactly at that point selects nothing. */
  lemma FilterEmptyAtMissedPoint(ds: Dataset, selectedSite: string, low: real)
    requires forall i :: 0 <= i < |ds| ==> ds[i].payload != low
    ensures GetFilteredData(ds, selectedSite, PayloadRange(low, low)) == []
  {
    FilterEmptyWhenNothingSelected(ds, selectedSite, PayloadRange(low, low));
  }

  lemma {:induction false} PayloadFilterKeepsAll(ds: Dataset, range: PayloadRange)
    requires forall i :: 0 <= i < |ds| ==> InRange(ds[i], range)
    ensures PayloadFilter(ds, range) == ds
  {
    if ds != [] {
      PayloadFilterKeepsAll(ds[1..], range);
    }
  }

  lemma {:induction false} SiteFilterKeepsAll(ds: Dataset, site: string)
    requires forall i :: 0 <= i < |ds| ==> ds[i].site == site
    ensures SiteFilter(ds, site) == ds
  {
    if ds != [] {
      SiteFilterKeepsAll(ds[1..], site);
    }
  }

  /** The payload mask drops nothing only if every payload is in range. */
  lemma {:induction false} PayloadFilterFullLength(ds: Dataset, range: PayloadRange)
    requires |PayloadFilter(ds, range)| == |ds|
    ensures forall i :: 0 <= i < |ds| ==> InRange(ds[i], range)
  {
    if ds != [] {
      var rest := PayloadFilter(ds[1..], range);
      SubsequenceLength(rest, ds[1..]);
      if !InRange(ds[0], range) {
        assert false;
      }
      assert |([ds[0]] + rest)| == 1 + |rest|;
      PayloadFilterFullLength(ds[1..], range);
      forall i | 0 < i < |ds| ensures InRange(ds[i], range) {
        assert ds[i] == ds[1..][i - 1];
      }
    }
  }

  /** A table whose records are all selected comes back unchanged. */
  lemma FilterKeepsAllSelected(ds: Dataset, selectedSite: string, range: PayloadRange)
    requires forall i :: 0 <= i < |ds| ==> Selected(ds[i], selectedSite, range)
    ensures GetFilteredData(ds, selectedSite, range) == ds
  {
    PayloadFilterKeepsAll(ds, range);
    if selectedSite != ALL_SITES {
      SiteFilterKeepsAll(ds, selectedSite);
    }
  }

  /**
    With "ALL" and a range covering every payload (for example the slider's
    default 0..16000, when every payload lies in it) the scatter gets one
    point per launch.
  */
  lemma FilterFullRangeAllSites(ds: Dataset, range: PayloadRange)
    requires forall i :: 0 <= i < |ds| ==> InRange(ds[i], range)
    ensures GetFilteredData(ds, ALL_SITES, range) == ds
  {
    FilterKeepsAllSelected(ds, ALL_SITES, range);
  }

  /** Filtering the filtered table again with the same inputs changes nothing. */
  lemma FilterIdempotent(ds: Dataset, selectedSite: string, range: PayloadRange)
    ensures GetFilteredData(GetFilteredData(ds, selectedSite, range), selectedSite, range)
         == GetFilteredData(ds, selectedSite, range)
  {
    FilterKeepsAllSelected(GetFilteredData(ds, selectedSite, range), selectedSite, range);
  }

  /** The two masks commute: filtering by site first gives the same table. */
  lemma {:induction false} FilterMasksCommute(ds: Dataset, site: string, range: PayloadRange)
    ensures SiteFilter(PayloadFilter(ds, range), site) == PayloadFilter(SiteFilter(ds, site), range)
  {
    if ds != [] {
      FilterMasksCommute(ds[1..], site, range);
      var p := PayloadFilter(ds[1..], range);
      var s := SiteFilter(ds[1..], site);
      if InRange(ds[0], range) {
        assert ([ds[0]] + p)[0] == ds[0] && ([ds[0]] + p)[1..] == p;
      }
      if ds[0].site == site {
        assert ([ds[0]] + s)[0] == ds[0] && ([ds[0]] + s)[1..] == s;
      }
    }
  }
}
