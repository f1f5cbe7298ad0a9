/**
 * The record types that flow through ffexport: `MozVisit` (one visit event),
 * `MozPlace` (the metadata of one page) and the merged `Visit`, together with
 * the two library calls the row mappings rely on.
 */
module Records {
  import opened Wrappers

  /** A timezone-aware UTC `datetime`: only its fields, the conversion is abstract. */
  datatype UtcDateTime = UtcDateTime(
    year: int, month: int, day: int,
    hour: int, minute: int, second: int, microsecond: int)

  /**
   * The library calls that are not modelled: `urllib.parse.unquote`
   * (percent-decoding) and `datetime.fromtimestamp(micros / 1_000_000, timezone.utc)`
   * (conversion of the stored microsecond count). Both are left uninterpreted.
   */
  datatype Codecs = Codecs(unquote: string -> string, fromMicros: int -> UtcDateTime)

  /** One visit event, as read by the visit query. */
  datatype MozVisit = MozVisit(
    url: string,
    placeId: int,
    visitId: int,
    visitDate: UtcDateTime,
    visitType: int)

  /** The metadata of one page, as read by the sitedata query. */
  datatype MozPlace = MozPlace(
    placeId: int,
    title: Option<string>,
    description: Option<string>,
    previewImage: Option<string>)

  /** A visit enriched with the metadata of its page. */
  datatype Visit = Visit(
    url: string,
    visitDate: UtcDateTime,
    visitType: int,
    title: Option<string>,
    description: Option<string>,
    previewImage: Option<string>)

  /** `unquote(pimg) if pimg is not None else None` */
  function UnquoteOptional(c: Codecs, stored: Option<string>): Option<string>
  {
    match stored
    case None => None
    case Some(s) => Some(c.unquote(s))
  }
}
