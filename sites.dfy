/**
  The list of launch sites, `sorted(spacex_df['Launch Site'].unique())`:
  every site of the table once, in the code-point order Python uses to
  compare strings.
*/
module Sites {
  import opened Collections
  import opened Records

  /** Python's `<` on strings: lexicographic by code point, a proper prefix first. */
  predicate Less(a: string, b: string)
    ensures a < b ==> Less(a, b)
  {
    if a == [] then b != []
    else if b == [] then false
    else a[0] < b[0] || (a[0] == b[0] && Less(a[1..], b[1..]))
  }

  lemma {:induction false} LessIrreflexive(a: string)
    ensures !Less(a, a)
  {
    if a != [] {
      LessIrreflexive(a[1..]);
    }
  }

  lemma {:induction false} LessTransitive(a: string, b: string, c: string)
    requires Less(a, b) && Less(b, c)
    ensures Less(a, c)
  {
    if a != [] && a[0] == b[0] && b[0] == c[0] {
      LessTransitive(a[1..], b[1..], c[1..]);
    }
  }

  lemma {:induction false} LessTrichotomous(a: string, b: string)
    ensures Less(a, b) || a == b || Less(b, a)
  {
    if a != [] && b != [] && a[0] == b[0] {
      LessTrichotomous(a[1..], b[1..]);
      if a[1..] == b[1..] {
        assert a == [a[0]] + a[1..] && b == [b[0]] + b[1..];
      }
    }
  }

  /** Ascending with no repeats. */
  predicate StrictlySorted(s: seq<string>) {
    forall i, j :: 0 <= i < j < |s| ==> Less(s[i], s[j])
  }

  /** Places `site` in a sorted list unless it is already there. */
  function Insert(site: string, s: seq<string>): (r: seq<string>)
    requires StrictlySorted(s)
    ensures StrictlySorted(r)
    ensures forall x :: x in r <==> x == site || x in s
    decreases |s|
  {
    if s == [] then [site]
    else if site == s[0] then s
    else if Less(site, s[0]) then
      assert forall j :: 0 < j < |s| ==> Less(site, s[j]) by {
        forall j | 0 < j < |s| ensures Less(site, s[j]) {
          LessTransitive(site, s[0], s[j]);
        }
      }
      [site] + s
    else
      LessTrichotomous(site, s[0]);
      var tail := Insert(site, s[1..]);
      assert forall x :: x in tail ==> Less(s[0], x) by {
        forall x | x in tail ensures Less(s[0], x) {
          if x != site {
            var j :| 0 <= j < |s[1..]| && s[1..][j] == x;
            assert s[j + 1] == x;
          }
        }
      }
      assert forall x :: x in s <==> x == s[0] || x in s[1..] by {
        assert s == [s[0]] + s[1..];
      }
      [s[0]] + tail
  }

  /** The distinct sites of `ds` in ascending order. */
  function LaunchSites(ds: Dataset): (sites: seq<string>)
    ensures StrictlySorted(sites)
    ensures forall s :: s in sites <==> s in SitesOf(ds)
  {
    if ds == [] then []
    else
      SitesOfCons(ds);
      Insert(ds[0].site, LaunchSites(ds[1..]))
  }

  /** A strictly sorted list has no duplicates. */
  lemma {:induction false} StrictlySortedDistinct(s: seq<string>)
    requires StrictlySorted(s)
    ensures Distinct(s)
  {
    if s != [] {
      if s[0] in s[1..] {
        var j :| 0 <= j < |s[1..]| && s[1..][j] == s[0];
        assert Less(s[0], s[j + 1]);
        LessIrreflexive(s[0]);
      }
      assert StrictlySorted(s[1..]) by {
        forall i, j | 0 <= i < j < |s[1..]| ensures Less(s[1..][i], s[1..][j]) {
          assert s[1..][i] == s[i + 1] && s[1..][j] == s[j + 1];
        }
      }
      StrictlySortedDistinct(s[1..]);
    }
  }

  /**
    Sorting determines the list: two strictly sorted lists with the same
    elements are equal, so `LaunchSites` is the only candidate for `sorted(unique())`.
  */
  lemma {:induction false} StrictlySortedUnique(a: seq<string>, b: seq<string>)
    requires StrictlySorted(a) && StrictlySorted(b)
    requires forall x :: x in a <==> x in b
    ensures a == b
    decreases |a|
  {
    assert a != [] ==> a[0] in b;
    assert b != [] ==> b[0] in a;
    if a != [] && b != [] {
      assert a[0] == b[0] by {
        assert a[0] in a && b[0] in b;
        var i :| 0 <= i < |b| && b[i] == a[0];
        var j :| 0 <= j < |a| && a[j] == b[0];
        if i != 0 && j != 0 {
          assert Less(b[0], b[i]) && Less(a[0], a[j]);
          LessTransitive(a[0], b[0], a[0]);
          LessIrreflexive(a[0]);
        } else if i != 0 {
          assert Less(b[0], b[i]);
          LessIrreflexive(a[0]);
        } else if j != 0 {
          assert Less(a[0], a[j]);
          LessIrreflexive(b[0]);
        }
      }
      StrictlySortedDistinct(a);
      StrictlySortedDistinct(b);
      assert StrictlySorted(a[1..]) by {
        forall i, j | 0 <= i < j < |a[1..]| ensures Less(a[1..][i], a[1..][j]) {
          assert a[1..][i] == a[i + 1] && a[1..][j] == a[j + 1];
        }
      }
      assert StrictlySorted(b[1..]) by {
        forall i, j | 0 <= i < j < |b[1..]| ensures Less(b[1..][i], b[1..][j]) {
          assert b[1..][i] == b[i + 1] && b[1..][j] == b[j + 1];
        }
      }
      assert a[0] !in a[1..] && b[0] !in b[1..];
      forall x ensures x in a[1..] <==> x in b[1..] {
        assert a == [a[0]] + a[1..] && b == [b[0]] + b[1..];
        assert x in a <==> x == a[0] || x in a[1..];
        assert x in b <==> x == b[0] || x in b[1..];
      }
      StrictlySortedUnique(a[1..], b[1..]);
      assert a == [a[0]] + a[1..] && b == [b[0]] + b[1..];
    }
  }

  /** `LaunchSites` lists each site once. */
  lemma LaunchSitesDistinct(ds: Dataset)
    ensures Distinct(LaunchSites(ds))
  {
    StrictlySortedDistinct(LaunchSites(ds));
  }
}
