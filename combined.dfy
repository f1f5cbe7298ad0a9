/**
 * `read_visits` runs COMBINED_QUERY so that SQLite does the join that
 * `single_db_merge` otherwise does in memory. This module proves the two
 * paths agree on any database whose `moz_places` ids are unique (they are the
 * table's primary key), and shows by example that they can differ otherwise.
 */
module Combined {
  import opened Wrappers
  import opened Records
  import opened PlacesDb
  import opened RowMapping
  import opened Merging

  /**
   * Looking a place's id up in the sitedata records finds that place's own
   * metadata when it has some, and nothing otherwise.
   */
  lemma SitedataLookup(c: Codecs, places: seq<Place>, p: Place)
    requires UniquePlaceIds(places)
    requires p in places
    ensures LastSiteFor(SiteRecords(c, SelectSitedata(places)), p.id)
         == if HasMetadata(p) then Some(ToMozPlace(c, SitedataRowOf(p))) else None
  {
    var rows := SelectSitedata(places);
    var sites := SiteRecords(c, rows);
    LastSiteForIsLastMatch(sites, p.id);
    SitedataRowsHaveMetadata(places);
    // a sitedata record with p's id comes from p itself
    forall j | 0 <= j < |sites| && sites[j].placeId == p.id
      ensures rows[j] == SitedataRowOf(p) && HasMetadata(p)
    {
      assert rows[j] in rows;
      var q :| q in places && HasMetadata(q) && rows[j] == SitedataRowOf(q);
      var a :| 0 <= a < |places| && places[a] == q;
      var b :| 0 <= b < |places| && places[b] == p;
      assert places[a].id == places[b].id;
    }
    if HasMetadata(p) {
      SitedataKeepsPlacesWithMetadata(places);
      var k :| 0 <= k < |rows| && rows[k] == SitedataRowOf(p);
      assert sites[k].placeId == p.id;
      var j :| IsLastMatch(sites, p.id, j) && sites[j] == LastSiteFor(sites, p.id).value;
      assert sites[j] == ToMozPlace(c, rows[j]);
    }
  }

  /**
   * The comment above COMBINED_QUERY: for the same tables, `read_visits`
   * yields exactly what `single_db_merge` yields on the records of
   * `single_db_visits` and `single_db_sitedata`.
   */
  lemma CombinedQueryAgreesWithMerge(c: Codecs, db: Database)
    requires UniquePlaceIds(db.places)
    ensures CombinedRecords(c, CombinedQuery(db))
         == Merge(VisitRecords(c, VisitQuery(db)), SiteRecords(c, SitedataQuery(db)))
  {
    var pairs := Join(db.historyVisits, db.places);
    var combined := CombinedRecords(c, CombinedQuery(db));
    var visits := VisitRecords(c, VisitQuery(db));
    var merged := Merge(visits, SiteRecords(c, SitedataQuery(db)));
    forall k | 0 <= k < |pairs|
      ensures combined[k] == merged[k]
    {
      var p := pairs[k].1;
      assert visits[k].placeId == p.id;
      SitedataLookup(c, db.places, p);
    }
  }

  /**
   * Without unique place ids the two paths differ: two places sharing id 1
   * with titles "x" and "y" give one visit of place 1 two combined rows titled
   * "x" and "y", while the merge gives both rows the last site's title "y".
   */
  lemma DuplicatePlaceIdsDisagree(c: Codecs)
    ensures exists db: Database ::
      && !UniquePlaceIds(db.places)
      && CombinedRecords(c, CombinedQuery(db)) != Merge(VisitRecords(c, VisitQuery(db)), SiteRecords(c, SitedataQuery(db)))
  {
    var x := Place(1, "a", Some("x"), None, None);
    var y := Place(1, "a", Some("y"), None, None);
    var db := Database(true, [x, y], [HistoryVisit(10, 1, 0, 1)]);
    var v := db.historyVisits[0];
    assert [x, y][1..] == [y] && [y][1..] == [];
    assert JoinVisit(v, [y]) == [(v, y)];
    assert Join(db.historyVisits, db.places) == [(v, x), (v, y)];
    assert SelectSitedata([y]) == [SitedataRowOf(y)];
    assert SitedataQuery(db) == [SitedataRowOf(x), SitedataRowOf(y)];
    var sites := SiteRecords(c, SitedataQuery(db));
    assert CombinedRecords(c, CombinedQuery(db))[0].title == Some("x");
    assert Merge(VisitRecords(c, VisitQuery(db)), sites)[0].title == Some("y");
    assert !UniquePlaceIds(db.places) by {
      assert db.places[0].id == db.places[1].id;
    }
  }
}
