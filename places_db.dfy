/**
 * The two tables of a Firefox `places.sqlite` database that ffexport reads,
 * and the three SQL queries it runs against them, as functions over the
 * tables' rows. A query's result order is whatever SQLite produces; the model
 * fixes one order (history visits in table order, and for each visit its
 * matching places in table order) and uses it for both joins.
 */
module PlacesDb {
  import opened Wrappers

  /** A row of `moz_places`. */
  datatype Place = Place(
    id: int,
    url: string,
    title: Option<string>,
    description: Option<string>,
    previewImageUrl: Option<string>)

  /** A row of `moz_historyvisits`. */
  datatype HistoryVisit = HistoryVisit(id: int, placeId: int, visitDate: int, visitType: int)

  /**
   * A database file or open connection: its two history tables, and whether
   * `SELECT * from moz_meta` succeeds on it (false when the table is missing
   * or the file is not a SQLite database).
   */
  datatype Database = Database(hasMozMeta: bool, places: seq<Place>, historyVisits: seq<HistoryVisit>)

  /** `moz_places.id` is the table's primary key. */
  predicate UniquePlaceIds(places: seq<Place>)
  {
    forall i, j :: 0 <= i < |places| && 0 <= j < |places| && places[i].id == places[j].id ==> i == j
  }

  /** Row shape of VISIT_QUERY: `P.url, P.id AS pid, V.id as vid, V.visit_date, V.visit_type`. */
  datatype VisitRow = VisitRow(url: string, pid: int, vid: int, visitDate: int, visitType: int)

  /** Row shape of SITEDATA_QUERY: `P.id AS pid, P.title, P.description, P.preview_image_url`. */
  datatype SitedataRow = SitedataRow(
    pid: int,
    title: Option<string>,
    description: Option<string>,
    previewImageUrl: Option<string>)

  /** Row shape of COMBINED_QUERY: `P.url, V.visit_date, V.visit_type, P.title, P.description, P.preview_image_url`. */
  datatype CombinedRow = CombinedRow(
    url: string,
    visitDate: int,
    visitType: int,
    title: Option<string>,
    description: Option<string>,
    previewImageUrl: Option<string>)

  /** The pairs `(V, P)` of one visit `V` with every place `P` such that `V.place_id = P.id`. */
  function JoinVisit(v: HistoryVisit, places: seq<Place>): (pairs: seq<(HistoryVisit, Place)>)
    ensures forall k :: 0 <= k < |pairs| ==> pairs[k].0 == v && pairs[k].1 in places && pairs[k].1.id == v.placeId
    ensures forall p :: p in places && p.id == v.placeId ==> (v, p) in pairs
  {
    if places == [] then []
    else (if places[0].id == v.placeId then [(v, places[0])] else []) + JoinVisit(v, places[1..])
  }

  /** `FROM moz_historyvisits as V, moz_places as P WHERE V.place_id = P.id` */
  function Join(visits: seq<HistoryVisit>, places: seq<Place>): (pairs: seq<(HistoryVisit, Place)>)
    ensures forall k :: 0 <= k < |pairs| ==> pairs[k].0 in visits && pairs[k].1 in places && pairs[k].0.placeId == pairs[k].1.id
    ensures forall v, p :: v in visits && p in places && v.placeId == p.id ==> (v, p) in pairs
  {
    if visits == [] then []
    else JoinVisit(visits[0], places) + Join(visits[1..], places)
  }

  /** VISIT_QUERY: one row per joined visit/place pair. */
  function VisitQuery(db: Database): seq<VisitRow>
  {
    var pairs := Join(db.historyVisits, db.places);
    seq(|pairs|, k requires 0 <= k < |pairs| =>
      VisitRow(pairs[k].1.url, pairs[k].1.id, pairs[k].0.id, pairs[k].0.visitDate, pairs[k].0.visitType))
  }

  /** `P.title IS NOT NULL OR P.description IS NOT NULL OR P.preview_image_url IS NOT NULL` */
  predicate HasMetadata(p: Place)
  {
    p.title.Some? || p.description.Some? || p.previewImageUrl.Some?
  }

  function SitedataRowOf(p: Place): SitedataRow
  {
    SitedataRow(p.id, p.title, p.description, p.previewImageUrl)
  }

  /** SITEDATA_QUERY on the rows of `moz_places`: the places with metadata, in table order. */
  function SelectSitedata(places: seq<Place>): seq<SitedataRow>
  {
    if places == [] then []
    else (if HasMetadata(places[0]) then [SitedataRowOf(places[0])] else []) + SelectSitedata(places[1..])
  }

  /** Every row of the sitedata query comes from a place that has some metadata. */
  lemma {:induction false} SitedataRowsHaveMetadata(places: seq<Place>)
    ensures forall r :: r in SelectSitedata(places) ==>
      exists p :: p in places && HasMetadata(p) && r == SitedataRowOf(p)
  {
    if places != [] {
      SitedataRowsHaveMetadata(places[1..]);
      assert forall p :: p in places[1..] ==> p in places;
    }
  }

  /** Every place that has some metadata yields a row of the sitedata query. */
  lemma {:induction false} SitedataKeepsPlacesWithMetadata(places: seq<Place>)
    ensures forall p :: p in places && HasMetadata(p) ==> SitedataRowOf(p) in SelectSitedata(places)
  {
    if places != [] {
      SitedataKeepsPlacesWithMetadata(places[1..]);
      assert forall p :: p in places ==> p == places[0] || p in places[1..];
    }
  }

  function SitedataQuery(db: Database): seq<SitedataRow>
  {
    SelectSitedata(db.places)
  }

  /** COMBINED_QUERY: the same join as VISIT_QUERY, carrying the page metadata. */
  function CombinedQuery(db: Database): seq<CombinedRow>
  {
    var pairs := Join(db.historyVisits, db.places);
    seq(|pairs|, k requires 0 <= k < |pairs| =>
      CombinedRow(pairs[k].1.url, pairs[k].0.visitDate, pairs[k].0.visitType,
                  pairs[k].1.title, pairs[k].1.description, pairs[k].1.previewImageUrl))
  }

  /** Every history visit whose `place_id` names an existing place. */
  predicate PlacesResolve(db: Database)
  {
    forall v :: v in db.historyVisits ==> exists p :: p in db.places && p.id == v.placeId
  }

  /**
   * With a unique place id and no dangling `place_id`, the join yields exactly
   * one pair per history visit, in table order: the visit query neither drops
   * nor repeats a visit.
   */
  lemma {:induction false} JoinVisitUnique(v: HistoryVisit, places: seq<Place>, p: Place)
    requires UniquePlaceIds(places)
    requires p in places && p.id == v.placeId
    ensures JoinVisit(v, places) == [(v, p)]
  {
    if places[0].id == v.placeId {
      assert places[0] == p by {
        var i :| 0 <= i < |places| && places[i] == p;
      }
      forall q | q in places[1..]
        ensures q.id != v.placeId
      {
        var j :| 0 <= j < |places[1..]| && places[1..][j] == q;
        assert places[j + 1] == q;
      }
      JoinVisitNoMatch(v, places[1..]);
    } else {
      assert p in places[1..] by {
        var i :| 0 <= i < |places| && places[i] == p;
        assert i != 0;
        assert places[1..][i - 1] == p;
      }
      UniqueTail(places);
      JoinVisitUnique(v, places[1..], p);
    }
  }

  lemma {:induction false} JoinVisitNoMatch(v: HistoryVisit, places: seq<Place>)
    requires forall q :: q in places ==> q.id != v.placeId
    ensures JoinVisit(v, places) == []
  {
    if places != [] {
      assert places[0] in places;
      assert forall q :: q in places[1..] ==> q in places;
      JoinVisitNoMatch(v, places[1..]);
    }
  }

  lemma UniqueTail(places: seq<Place>)
    requires places != [] && UniquePlaceIds(places)
    ensures UniquePlaceIds(places[1..])
  {
  }

  lemma {:induction false} VisitQueryOneRowPerVisit(db: Database)
    requires UniquePlaceIds(db.places) && PlacesResolve(db)
    ensures |VisitQuery(db)| == |db.historyVisits|
    ensures forall k :: 0 <= k < |db.historyVisits| ==>
      VisitQuery(db)[k].vid == db.historyVisits[k].id &&
      VisitQuery(db)[k].pid == db.historyVisits[k].placeId &&
      VisitQuery(db)[k].visitDate == db.historyVisits[k].visitDate &&
      VisitQuery(db)[k].visitType == db.historyVisits[k].visitType
  {
    JoinOnePerVisit(db.historyVisits, db.places);
  }

  lemma {:induction false} JoinOnePerVisit(visits: seq<HistoryVisit>, places: seq<Place>)
    requires UniquePlaceIds(places)
    requires forall v :: v in visits ==> exists p :: p in places && p.id == v.placeId
    ensures |Join(visits, places)| == |visits|
    ensures forall k :: 0 <= k < |visits| ==> Join(visits, places)[k].0 == visits[k]
  {
    if visits != [] {
      var v := visits[0];
      var p :| p in places && p.id == v.placeId;
      JoinVisitUnique(v, places, p);
      assert forall w :: w in visits[1..] ==> w in visits;
      JoinOnePerVisit(visits[1..], places);
      forall k | 0 <= k < |visits|
        ensures Join(visits, places)[k].0 == visits[k]
      {
        if k > 0 {
          assert Join(visits, places)[k] == Join(visits[1..], places)[k - 1];
        }
      }
    }
  }
}
