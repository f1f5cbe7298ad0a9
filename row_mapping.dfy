/**
 * The per-row conversions done by `single_db_visits`, `single_db_sitedata`
 * and `read_visits`: each query row becomes one record, URLs are
 * percent-decoded and the stored microsecond counts become UTC datetimes.
 */
module RowMapping {
  import opened Wrappers
  import opened Records
  import opened PlacesDb

  /** The body of the loop in `single_db_visits`. */
  function ToMozVisit(c: Codecs, row: VisitRow): MozVisit
  {
    MozVisit(c.unquote(row.url), row.pid, row.vid, c.fromMicros(row.visitDate), row.visitType)
  }

  /** The body of the loop in `single_db_sitedata`. */
  function ToMozPlace(c: Codecs, row: SitedataRow): MozPlace
  {
    MozPlace(row.pid, row.title, row.description, UnquoteOptional(c, row.previewImageUrl))
  }

  /** The body of the loop in `read_visits`. */
  function ToVisit(c: Codecs, row: CombinedRow): Visit
  {
    Visit(c.unquote(row.url), c.fromMicros(row.visitDate), row.visitType,
          row.title, row.description, UnquoteOptional(c, row.previewImageUrl))
  }

  function VisitRecords(c: Codecs, rows: seq<VisitRow>): seq<MozVisit>
  {
    seq(|rows|, k requires 0 <= k < |rows| => ToMozVisit(c, rows[k]))
  }

  function SiteRecords(c: Codecs, rows: seq<SitedataRow>): seq<MozPlace>
  {
    seq(|rows|, k requires 0 <= k < |rows| => ToMozPlace(c, rows[k]))
  }

  function CombinedRecords(c: Codecs, rows: seq<CombinedRow>): seq<Visit>
  {
    seq(|rows|, k requires 0 <= k < |rows| => ToVisit(c, rows[k]))
  }

  /**
   * `s` carries the id, title and description of place `p`; its preview image
   * is absent exactly when `p`'s stored URL is, and is otherwise that URL decoded.
   */
  predicate DescribesPlace(c: Codecs, s: MozPlace, p: Place)
  {
    && s.placeId == p.id
    && s.title == p.title
    && s.description == p.description
    && (s.previewImage.None? <==> p.previewImageUrl.None?)
    && (p.previewImageUrl.Some? ==> s.previewImage == Some(c.unquote(p.previewImageUrl.value)))
  }

  /**
   * The records `single_db_sitedata` yields for a database: each describes a
   * place with some metadata, so none has all three metadata fields absent;
   * and every place with some metadata is described by one of them.
   */
  lemma SitedataRecordsFromPlaces(c: Codecs, db: Database)
    ensures forall s :: s in SiteRecords(c, SitedataQuery(db)) ==>
      (s.title.Some? || s.description.Some? || s.previewImage.Some?) &&
      (exists p :: p in db.places && HasMetadata(p) && DescribesPlace(c, s, p))
    ensures forall p :: p in db.places && HasMetadata(p) ==>
      exists s :: s in SiteRecords(c, SitedataQuery(db)) && DescribesPlace(c, s, p)
  {
    var rows := SitedataQuery(db);
    SitedataRowsHaveMetadata(db.places);
    SitedataKeepsPlacesWithMetadata(db.places);
    forall s | s in SiteRecords(c, rows)
      ensures exists p :: p in db.places && HasMetadata(p) && DescribesPlace(c, s, p)
    {
      var k :| 0 <= k < |rows| && s == ToMozPlace(c, rows[k]);
      assert rows[k] in rows;
      var p :| p in db.places && HasMetadata(p) && rows[k] == SitedataRowOf(p);
      assert DescribesPlace(c, s, p);
    }
    forall p | p in db.places && HasMetadata(p)
      ensures exists s :: s in SiteRecords(c, rows) && DescribesPlace(c, s, p)
    {
      var k :| 0 <= k < |rows| && rows[k] == SitedataRowOf(p);
      assert SiteRecords(c, rows)[k] in SiteRecords(c, rows);
      assert DescribesPlace(c, SiteRecords(c, rows)[k], p);
    }
  }
}
