# ffexport history reader, modelled in Dafny

A model of `ffexport/parse_db.py`, the part of ffexport that reads the browsing
history out of a Firefox `places.sqlite` database. It covers:

- the two tables the reader uses, `moz_places` and `moz_historyvisits`, and its
  three SQL queries (VISIT_QUERY, SITEDATA_QUERY, COMBINED_QUERY), written as
  functions over the tables' rows (`places_db.dfy`);
- the per-row conversions of `single_db_visits`, `single_db_sitedata` and
  `read_visits` into `MozVisit`, `MozPlace` and `Visit` records
  (`records.dfy`, `row_mapping.dfy`);
- `single_db_merge`, which joins visit records with site records on the place
  id in memory, as an imperative method with its dictionary and two loops,
  proved against a specification function (`merge.dfy`);
- the claim in the comment above COMBINED_QUERY: the combined query gives the
  same visits as the visit query, the sitedata query and the merge together
  (`combined.dfy`);
- `_execute_query` and the memoised `_sanity_check`: a path is probed for a
  `moz_meta` table through an `lru_cache` before a query runs, an open
  connection is used as it is. The cache is a field of a reader object, and
  every run of the probe is logged so that "probed at most once" can be stated
  (`source_reader.dfy`).

`urllib.parse.unquote` and the conversion
`datetime.fromtimestamp(micros / 1_000_000, timezone.utc)` are left
uninterpreted: they are the two fields of a `Codecs` value that every row
conversion takes as a parameter. The database files on disk are a parameter
too: a map from path to the database's tables.

The model assumes both join queries return their rows in the same order:
history visits in table order, and for each visit its matching places in table
order. The two queries select different columns and SQLite promises no order,
so this is an assumption of the model. The agreement of the two paths is
stated under this common order.

Facts about the code that the model keeps:

- The cache is keyed by the `lru_cache` argument, so the string `"a"` and
  `Path("a")` are probed separately (`StrPath` and `PathObject` are different
  `Source`s).
- A failed probe raises, and `lru_cache` does not store exceptions, so a
  failed probe is not cached and runs again on the next call.
- The probe re-raises SQLite's `DatabaseError` (`DbError.NotPlacesDb`).
- The combined path is proved to agree with the merge path when `moz_places`
  ids are unique, as the table's primary key makes them. With repeated ids it
  can fail: `Combined.DuplicatePlaceIdsDisagree` gives a database on which the
  two paths differ.

## Model

| member | source | states |
|---|---|---|
| `PlacesDb.VisitQuery` | ffexport/parse_db.py:23-28 | definition: one VISIT_QUERY row per joined visit/place pair |
| `PlacesDb.SelectSitedata` | ffexport/parse_db.py:32-35 | definition: the SITEDATA_QUERY filter over the rows of `moz_places` |
| `PlacesDb.SitedataQuery` | ffexport/parse_db.py:32-35 | definition: SITEDATA_QUERY on a database |
| `PlacesDb.CombinedQuery` | ffexport/parse_db.py:38-43 | definition: one COMBINED_QUERY row per joined visit/place pair |
| `RowMapping.ToMozVisit` | ffexport/parse_db.py:97-106 | definition: the loop body of `single_db_visits` |
| `RowMapping.ToMozPlace` | ffexport/parse_db.py:113-119 | definition: the loop body of `single_db_sitedata` |
| `RowMapping.ToVisit` | ffexport/parse_db.py:158-168 | definition: the loop body of `read_visits` |
| `Merging.LastSiteFor` | ffexport/parse_db.py:129-141 | definition: what the overwriting dictionary holds under a place id |
| `Merging.Merge` | ffexport/parse_db.py:129-149 | definition: the specification `SingleDbMerge` is proved against |
| `SourceReader.Probe` | ffexport/parse_db.py:47-58 | definition: the probe's verdict on a path |
| `SourceReader.Fetch` | ffexport/parse_db.py:83-88 | definition: the query run on the caller's connection or on a fresh connection to the path |
| `PlacesDb.JoinVisit` | ffexport/parse_db.py:26-27 | every pair pairs the visit with a place of the same id, and every such place is paired |
| `PlacesDb.Join` | ffexport/parse_db.py:26-27 | the join yields exactly the visit/place pairs with `V.place_id = P.id` |
| `PlacesDb.JoinVisitNoMatch` | ffexport/parse_db.py:26-27 | a visit whose place id names no place yields no join row |
| `PlacesDb.JoinVisitUnique` | ffexport/parse_db.py:26-27 | with unique place ids, a visit whose place exists yields exactly one join row |
| `PlacesDb.JoinOnePerVisit` | ffexport/parse_db.py:23-28 | with unique place ids and no dangling place id, the join has one pair per visit, in visit order |
| `PlacesDb.VisitQueryOneRowPerVisit` | ffexport/parse_db.py:23-28 | under the same conditions VISIT_QUERY gives one row per history visit, carrying its id, place id, date and type, in order |
| `PlacesDb.SitedataRowsHaveMetadata` | ffexport/parse_db.py:32-35 | every SITEDATA_QUERY row is the row of a place whose title, description or preview image is non-null |
| `PlacesDb.SitedataKeepsPlacesWithMetadata` | ffexport/parse_db.py:32-35 | every place with a non-null title, description or preview image has its row in SITEDATA_QUERY |
| `RowMapping.SitedataRecordsFromPlaces` | ffexport/parse_db.py:109-119 | the `MozPlace` records of `single_db_sitedata` each have a non-null metadata field and describe a place with metadata (same id, title, description; preview image `None` exactly when the stored URL is, otherwise its `unquote`), and every such place is described |
| `Merging.LastSiteForIsLastMatch` | ffexport/parse_db.py:129-138 | the dictionary built by overwriting per site has no entry for an id exactly when no site has it, and otherwise holds the last site with it |
| `Merging.SingleDbMerge` | ffexport/parse_db.py:122-149 | the method's dictionary loop and visit loop compute `Merge`; one output per visit, the i-th keeping the i-th visit's url, date and type |
| `Merging.MergeUnmatchedHasNoMetadata` | ffexport/parse_db.py:134-148 | a visit whose place id no site has gets `None` title, description and preview image |
| `Merging.MergeCopiesLastMatch` | ffexport/parse_db.py:129-141 | a visit whose place id some sites have gets the three fields of the last of those sites |
| `Merging.MergeWithoutSites` | ffexport/parse_db.py:129-149 | with an empty site list every output has all three metadata fields `None` |
| `Combined.SitedataLookup` | ffexport/parse_db.py:109-131 | with unique place ids, looking a place up in the sitedata records finds its own metadata if it has any, and nothing otherwise |
| `Combined.CombinedQueryAgreesWithMerge` | ffexport/parse_db.py:37-43 | with unique place ids, `read_visits`' records equal `single_db_merge` of the `single_db_visits` and `single_db_sitedata` records |
| `Combined.DuplicatePlaceIdsDisagree` | ffexport/parse_db.py:37-43 | some database with a repeated place id makes the two paths give different visits |
| `SourceReader.HistoryReader.constructor` | ffexport/parse_db.py:45-47 | a fresh reader has an empty validation cache and has run no probe |
| `SourceReader.HistoryReader.SanityCheck` | ffexport/parse_db.py:45-58 | a cached path passes without probing; otherwise the probe runs once, is logged, and its path is cached only if it passed |
| `SourceReader.HistoryReader.ExecuteQuery` | ffexport/parse_db.py:76-88 | a connection is queried without a probe; a path is probed through the cache first, and a failed probe yields an error and no rows; rows from a path only follow a passing probe of it |
| `SourceReader.HistoryReader.SingleDbVisits` | ffexport/parse_db.py:91-106 | the visit query's rows, each mapped to a `MozVisit`, or the query's error |
| `SourceReader.HistoryReader.SingleDbSitedata` | ffexport/parse_db.py:109-119 | the sitedata query's rows, each mapped to a `MozPlace`, or the query's error |
| `SourceReader.HistoryReader.ReadVisits` | ffexport/parse_db.py:152-168 | the combined query's rows, each mapped to a `Visit`, or the query's error |
| `ReaderClients.SanityCheckTwice` | ffexport/parse_db.py:45-58 | checking one path twice gives the probe's verdict both times; a passing probe runs once, a failing one runs twice |
| `ReaderClients.ConnectionSkipsProbe` | ffexport/parse_db.py:80-84 | an open connection is queried without any probe, even when it has no `moz_meta` table |
| `ReaderClients.MissingMozMetaYieldsNoRows` | ffexport/parse_db.py:49-56 | a path to a database without `moz_meta` yields the probe's error, no rows, and is not cached |
| `ReaderClients.BothPathsAgree` | ffexport/parse_db.py:37-43 | on any valid reader, whatever its cache holds, and one source with unique place ids, the merge path and `read_visits` both succeed or both fail, and agree when they succeed |

## Left out

- SQLite itself: connecting, the `immutable=1` URI, `row_factory`, cursors. A query on an existing file always succeeds here; errors a query can raise after the probe (a missing `moz_places` table, a locked or corrupt file) are not modelled.
- Where a missing file makes SQLite raise (on connecting or on the probe's select) is not distinguished: both are `CannotOpen`.
- The `text_factory` that decodes text bytes with `errors="ignore"`: rows carry already-decoded strings.
- `unquote` and `datetime.fromtimestamp` are uninterpreted (`Codecs`); their results are not modelled, so no percent-decoding or date arithmetic is proved.
- Raising row conversions: the conversion is total here and the `url`, `visit_date` and `visit_type` columns are non-null. In the code, a timestamp outside `datetime`'s range, a NULL `visit_date` (`None / 1_000_000`) or a NULL `url` (`unquote(None)`) raises partway through the generator; the model instead returns every row.
- The functions are generators: the model computes each result in full, and the probe runs when the call is made rather than when iteration starts. Stopping an iteration early is not modelled.
- Closing connections: the probe's connection is closed in its `finally`, but the query connection is never closed explicitly, because sqlite3's connection context manager only commits or rolls back. Neither affects the rows.
- `_execute_conn` setting `row_factory` and `text_factory` on a caller's own connection.
- `expand_path` is not part of this model: paths are looked up on the disk map as given, and the cache is keyed by the argument as given.
- Logging calls.
- `browserexport/browsers/waterfox.py`: a per-OS table of profile directories handed to code that is not part of this model.
