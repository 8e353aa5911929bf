# SpaceX launch dashboard: filter and aggregation engine

This project models the data logic of a Dash dashboard over a table of
rocket launches. Each row has a launch site, a payload mass in kg, an
outcome (`class`: 1 for success, 0 for failure), a booster version and a
booster version category. The dashboard has two charts:

- a pie chart driven by the site dropdown;
- a scatter chart driven by the dropdown and a payload-range slider.

The model covers what sits under those charts:

- the range-and-site filter `get_filtered_data`;
- the two pie aggregations: the per-site sum of `class` for "ALL", and the
  `class` value counts for one site;
- the choice between those two pie views;
- the sorted, duplicate-free list of launch sites.

All of this is pure in the source, so the model is Dafny functions and
lemmas. The table is an immutable `seq<Record>` passed as a parameter. The
dropdown's sentinel is the string constant `ALL_SITES` (`"ALL"`). The
slider's value is a `PayloadRange(low, high)` pair. Payloads are `real`, and
only `<=` is ever applied to them. Outcomes are `int`: the predicate
`WellFormed` says every outcome is 0 or 1 and every site label is non-empty,
and it is assumed only by the lemmas that need it.

Modules:

- `Collections`: duplicate-free lists, order-preserving subsequences, and
  `SumAt`, the total of a map's entries over a list of keys.
- `Records`: the row type, the sets of sites and outcomes occurring in a
  table, the sum of `class`, and outcome counts.
- `Filter`: the payload mask, the site mask and `GetFilteredData`.
- `Aggregate`: the group-by-sum and the value counts.
- `Sites`: Python's string order and `LaunchSites`.
- `Pie`: the pie-view selector `UpdatePieChart` and its properties.

The slider's default is `[0.0, 16000.0]` (spacex_dash_app.py:20, 49).
`min_payload` and `max_payload` (spacex_dash_app.py:11-12) are computed but
never used. The model takes the range as a parameter, so the default plays
no part.

## Model

| member | source | states |
|---|---|---|
| `Filter.PayloadFilter` | spacex_dash_app.py:98-99 | every kept record has low <= payload <= high (both inclusive); the result is an order-preserving subsequence; each record occurs as often as in the table if in range, otherwise not at all |
| `Filter.SiteFilter` | spacex_dash_app.py:103 | every kept record has the requested site |
| `Filter.SiteFilterSpec` | spacex_dash_app.py:77 | the site mask is an order-preserving subsequence that keeps every record of the site as often as in the table and no other record; it is empty exactly when the site never occurs |
| `Filter.GetFilteredData` | spacex_dash_app.py:96-105 | every returned record is in the inclusive range; if the site is not "ALL" every returned record has that site; the result is an order-preserving subsequence; it holds each record meeting both predicates as often as the table does, and nothing else ("ALL" means no site restriction) |
| `Filter.FilterEmptyWhenNothingSelected` | spacex_dash_app.py:96-105 | if no record meets the predicates the result is the empty table, not an error |
| `Filter.FilterEmptyWhenRangeInverted` | spacex_dash_app.py:98-99 | a range with low > high gives the empty table |
| `Filter.FilterEmptyAtMissedPoint` | spacex_dash_app.py:98-99 | the range (low, low) with no payload equal to low gives the empty table |
| `Filter.PayloadFilterFullLength` | spacex_dash_app.py:98-99 | if the payload mask keeps as many records as it is given, every one of them has its payload in the range |
| `Filter.FilterKeepsAllSelected` | spacex_dash_app.py:96-105 | a table whose records all meet the predicates comes back unchanged |
| `Filter.FilterFullRangeAllSites` | spacex_dash_app.py:96-105 | with "ALL" and a range covering every payload, the scatter data is the whole table |
| `Filter.FilterIdempotent` | spacex_dash_app.py:96-105 | filtering the filtered table again with the same inputs returns it unchanged |
| `Filter.FilterMasksCommute` | spacex_dash_app.py:98-103 | applying the site mask before the payload mask gives the same table |
| `Aggregate.SuccessBySite` | spacex_dash_app.py:65 | the group-by-sum has exactly one entry per site that occurs in the table |
| `Aggregate.SuccessBySiteAt` | spacex_dash_app.py:65 | each site's entry is the sum of `class` over that site's records, and a missing site reads as 0 |
| `Aggregate.SuccessBySiteTotal` | spacex_dash_app.py:65 | over any duplicate-free list naming every site, the entries add up to the sum of `class` over the whole table |
| `Aggregate.ValueCounts` | spacex_dash_app.py:78 | value counts are keyed by exactly the `class` values present; each entry is the number of records with that value, and at least 1 |
| `Aggregate.OutcomeCounts` | spacex_dash_app.py:77-78 | the single-site counts are keyed by exactly the `class` values of that site's records (payload ignored); each entry is how many of them have that value |
| `Aggregate.ValueCountsTotal` | spacex_dash_app.py:78 | over any duplicate-free list naming every present value, the counts add up to the number of records counted |
| `Aggregate.SiteFilterWellFormed` | spacex_dash_app.py:77 | restricting to one site keeps outcomes binary and sites non-empty |
| `Aggregate.OutcomeCountsPartition` | spacex_dash_app.py:77-78 | on binary outcomes a site's counts have keys within {0, 1}, and failures plus successes equal the number of that site's launches |
| `Aggregate.SuccessCountsAgree` | spacex_dash_app.py:65-78 | on binary outcomes a site's success count in the single-site view equals its entry in the all-sites view |
| `Records.SumClassCountsSuccesses` | spacex_dash_app.py:65 | on binary outcomes the sum of `class` is the number of successful launches |
| `Sites.Less` | spacex_dash_app.py:18 | Python's string order, lexicographic by code point; a proper prefix sorts before the longer string |
| `Sites.LessIrreflexive` | spacex_dash_app.py:18 | no string sorts before itself under Python's string order |
| `Sites.LessTransitive` | spacex_dash_app.py:18 | Python's string order is transitive |
| `Sites.LessTrichotomous` | spacex_dash_app.py:18 | any two strings are equal or one sorts before the other |
| `Sites.Insert` | spacex_dash_app.py:18 | inserting into a strictly sorted list keeps it strictly sorted and adds exactly the new element |
| `Sites.LaunchSites` | spacex_dash_app.py:18 | the site list is strictly ascending, and its elements are exactly the sites occurring in the table |
| `Sites.StrictlySortedDistinct` | spacex_dash_app.py:18 | a strictly ascending list has no duplicates |
| `Sites.StrictlySortedUnique` | spacex_dash_app.py:18 | two strictly ascending lists with the same elements are equal, so the sorted, duplicate-free site list is unique |
| `Sites.LaunchSitesDistinct` | spacex_dash_app.py:18 | the site list names each site once |
| `Pie.UpdatePieChart` | spacex_dash_app.py:62-89 | "ALL" selects the per-site view and any other value the single-site view; the per-site view has one wedge per site, sized by its sum of `class`; the single-site view names the site and has one wedge per `class` value, sized by its number of launches; no payload range is an input |
| `Pie.AllSitesPieTotal` | spacex_dash_app.py:63-74 | the all-sites wedges correspond exactly to the entries of `launch_sites`, and they add up to the sum of `class` over the whole table |
| `Pie.SitePieTotal` | spacex_dash_app.py:75-89 | on binary outcomes a single-site pie has wedges only at 0 and 1, and they add up to the number of that site's launches |
| `Pie.SitePieIgnoresPayloadRange` | spacex_dash_app.py:58-62 | the single-site pie counts at least as many launches as the scatter data has for any payload range, and exactly as many if and only if the range covers all of that site's payloads |
| `Pie.SiteCoveredWhenNothingDropped` | spacex_dash_app.py:98-103 | if the payload mask drops none of a site's records, every record of that site has its payload in the range |
| `Pie.UnknownSitePieEmpty` | spacex_dash_app.py:75-79 | a site label that names no launch gives a single-site pie with no wedges, not an error |
| `Pie.TwoSiteScenario` | spacex_dash_app.py:62-89 | with sites A (2 successes, 1 failure) and B (1 success, 1 failure), the all-sites pie is {A: 2, B: 1} and A's pie is {1: 2, 0: 1} |

## Left out

- Loading the CSV file and computing `max_payload` and `min_payload` (spacex_dash_app.py:10-12) are file I/O. The table is a parameter instead.
- The Dash application is left out: the layout, the dropdown and slider widgets, the callback registration and `app.run()` (spacex_dash_app.py:15, 23-53, 58-61, 110-114, 138-139). This is UI and framework dispatch. The dropdown's hard-coded options and the slider's default range are widget configuration.
- Plotly figure construction is left out: `px.pie`, `px.scatter`, `update_traces`, `update_layout`, titles, colour maps and hover data (spacex_dash_app.py:68-74, 81-92, 118-133). These are library calls. `update_scatter_plot` is modelled only through the data it plots, `GetFilteredData`.
- The row order pandas gives its outputs is not modelled: `groupby` sorts by key and `value_counts` by descending count. Both aggregations are maps.
- Floating point is not modelled. Payloads are exact reals, so NaN payloads, which every comparison would drop, do not exist. NaN keys, which `groupby` and `value_counts` skip, do not exist either.
- The dropdown value is a string, so a cleared dropdown (`None`) is not modelled. In the source `None == 'ALL'` is false (spacex_dash_app.py:63, 102) and `spacex_df['Launch Site'] == None` is false on every row (77, 103), so both the single-site pie and the scatter data come out empty, as for any label that names no launch (`Pie.UnknownSitePieEmpty`, `Filter.FilterEmptyWhenNothingSelected`).
