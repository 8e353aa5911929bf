/**
  The launch table: one `Record` per row of the dataset the dashboard loads
  at start-up, and the per-column summaries its aggregations are specified by.
*/
module Records {

  /**
    One launch: the `Launch Site`, `Payload Mass (kg)`, `class` (1 for a
    successful launch, 0 for a failed one), `Booster Version` and
    `Booster Version Category` columns.
  */
  datatype Record = Record(
    site: string,
    payload: real,
    outcome: int,
    booster: string,
    boosterCategory: string)

  /** The whole table, read-only after loading. */
  type Dataset = seq<Record>

  /** Every outcome is binary and every launch names a site. */
  predicate WellFormed(ds: Dataset) {
    forall r | r in ds :: (r.outcome == 0 || r.outcome == 1) && r.site != ""
  }

  /** The site labels occurring in `ds`. */
  function SitesOf(ds: Dataset): set<string> {
    set r | r in ds :: r.site
  }

  /** The `class` values occurring in `ds`. */
  function OutcomesOf(ds: Dataset): set<int> {
    set r | r in ds :: r.outcome
  }

  lemma SitesOfCons(ds: Dataset)
    requires ds != []
    ensures SitesOf(ds) == {ds[0].site} + SitesOf(ds[1..])
    ensures OutcomesOf(ds) == {ds[0].outcome} + OutcomesOf(ds[1..])
  {
    assert forall r :: r in ds <==> r == ds[0] || r in ds[1..] by {
      assert ds == [ds[0]] + ds[1..];
    }
  }

  /** The sum of the `class` column. */
  function SumClass(ds: Dataset): int {
    if ds == [] then 0 else ds[0].outcome + SumClass(ds[1..])
  }

  /** How many records have outcome `c`. */
  function CountOutcome(ds: Dataset, c: int): (n: nat)
    ensures n <= |ds|
    ensures n > 0 <==> c in OutcomesOf(ds)
  {
    if ds == [] then 0
    else (if ds[0].outcome == c then 1 else 0) + CountOutcome(ds[1..], c)
  }

  /** On binary outcomes the sum of `class` is the number of successes. */
  lemma {:induction false} SumClassCountsSuccesses(ds: Dataset)
    requires WellFormed(ds)
    ensures SumClass(ds) == CountOutcome(ds, 1)
  {
    if ds != [] {
      assert ds[0] in ds;
      assert WellFormed(ds[1..]) by {
        forall r | r in ds[1..] ensures r in ds { }
      }
      SumClassCountsSuccesses(ds[1..]);
    }
  }
}
