/**
 * `_execute_query` and `_sanity_check`: how a query reaches a database, and
 * the memoised check that a path names a Firefox history database. The
 * process-wide `lru_cache` is the `validated` field of a reader object.
 */
module SourceReader {
  import opened Wrappers
  import opened Records
  import opened PlacesDb
  import opened RowMapping

  /**
   * The `PathIshOrConn` argument. A `str` and a `Path` with the same text are
   * different `lru_cache` keys, so they are different sources here.
   */
  datatype Source = StrPath(path: string) | PathObject(path: string) | Connection(db: Database)
  {
    predicate IsPath() { !Connection? }
  }

  /** The database files on disk, by (expanded) path. */
  type Disk = map<string, Database>

  /** `sqlite3.OperationalError` on connecting, or the `DatabaseError` re-raised by the probe. */
  datatype DbError = CannotOpen(path: string) | NotPlacesDb(path: string)

  /** One execution of the probe body of `_sanity_check`, and whether it passed. */
  datatype ProbeRun = ProbeRun(key: Source, passed: bool)

  /** The probe: open the file read-only and `SELECT * from moz_meta`. */
  function Probe(disk: Disk, path: string): Outcome<DbError>
  {
    if path !in disk then Fail(CannotOpen(path))
    else if !disk[path].hasMozMeta then Fail(NotPlacesDb(path))
    else Pass
  }

  /** Running a query: on the caller's connection, or on a fresh connection to the path. */
  function Fetch<R>(src: Source, disk: Disk, query: Database -> seq<R>): Result<seq<R>, DbError>
  {
    match src
    case Connection(db) => Ok(query(db))
    case _ => if src.path in disk then Ok(query(disk[src.path])) else Err(CannotOpen(src.path))
  }

  /** Whether `_execute_query` runs the probe, given the keys the cache holds. */
  predicate NeedsProbe(validated: set<Source>, src: Source)
  {
    src.IsPath() && src !in validated
  }

  /** What `_execute_query` yields, given the keys the cache holds when it starts. */
  function Answer<R>(validated: set<Source>, src: Source, disk: Disk, query: Database -> seq<R>): Result<seq<R>, DbError>
  {
    if NeedsProbe(validated, src) && Probe(disk, src.path).Fail? then Err(Probe(disk, src.path).error)
    else Fetch(src, disk, query)
  }

  function MapRows<A, B>(r: Result<seq<A>, DbError>, f: seq<A> -> seq<B>): Result<seq<B>, DbError>
  {
    match r
    case Ok(rows) => Ok(f(rows))
    case Err(e) => Err(e)
  }

  class HistoryReader {
    /** The keys `_sanity_check`'s `lru_cache` holds; it only ever stores the success value. */
    var validated: set<Source>
    /** Every execution of the probe, in order: a log for stating how often it runs. */
    ghost var probes: seq<ProbeRun>
    /** `unquote` and the timestamp conversion. */
    const codecs: Codecs

    /**
     * The cache holds exactly the paths whose probe has passed, and once a
     * probe of a path has passed that path is never probed again.
     */
    ghost predicate Valid()
      reads this
    {
      && (forall i :: 0 <= i < |probes| ==> probes[i].key.IsPath())
      && (forall s :: s in validated <==> ProbeRun(s, true) in probes)
      && (forall i, j :: 0 <= i < j < |probes| && probes[i].key == probes[j].key ==> !probes[i].passed)
    }

    constructor (codecs: Codecs)
      ensures Valid()
      ensures validated == {} && probes == [] && this.codecs == codecs
    {
      validated := {};
      probes := [];
      this.codecs := codecs;
    }

    /** The cache and the probe log after one query from `src`. */
    twostate predicate Dispatched(src: Source, disk: Disk)
      reads this
    {
      if NeedsProbe(old(validated), src) then
        && probes == old(probes) + [ProbeRun(src, Probe(disk, src.path).Pass?)]
        && validated == (if Probe(disk, src.path).Pass? then old(validated) + {src} else old(validated))
      else
        probes == old(probes) && validated == old(validated)
    }

    /** `_sanity_check(key)` called through its `lru_cache`. */
    method SanityCheck(key: Source, disk: Disk) returns (r: Outcome<DbError>)
      requires Valid() && key.IsPath()
      modifies this
      ensures Valid() && Dispatched(key, disk)
      ensures old(key in validated) ==> r == Pass
      ensures old(key !in validated) ==> r == Probe(disk, key.path)
    {
      if key in validated {
        return Pass;
      }
      r := Probe(disk, key.path);
      probes := probes + [ProbeRun(key, r.Pass?)];
      if r.Pass? {
        validated := validated + {key};
      }
    }

    /**
     * `_execute_query`: a path is checked (through the cache) before the
     * query runs, a connection is used as it is.
     */
    method ExecuteQuery<R>(src: Source, disk: Disk, query: Database -> seq<R>) returns (r: Result<seq<R>, DbError>)
      requires Valid()
      modifies this
      ensures Valid() && Dispatched(src, disk)
      ensures r == Answer(old(validated), src, disk, query)
      ensures src.Connection? ==> probes == old(probes) && r == Ok(query(src.db))
      ensures src.IsPath() && r.Ok? ==> ProbeRun(src, true) in probes
    {
      if src.IsPath() {
        var ok := SanityCheck(src, disk);
        if ok.Fail? {
          return Err(ok.error);
        }
      }
      r := Fetch(src, disk, query);
    }

    /** `single_db_visits` */
    method SingleDbVisits(src: Source, disk: Disk) returns (r: Result<seq<MozVisit>, DbError>)
      requires Valid()
      modifies this
      ensures Valid() && Dispatched(src, disk)
      ensures r == MapRows(Answer(old(validated), src, disk, VisitQuery), rows => VisitRecords(codecs, rows))
    {
      var rows := ExecuteQuery(src, disk, VisitQuery);
      r := MapRows(rows, rows => VisitRecords(codecs, rows));
    }

    /** `single_db_sitedata` */
    method SingleDbSitedata(src: Source, disk: Disk) returns (r: Result<seq<MozPlace>, DbError>)
      requires Valid()
      modifies this
      ensures Valid() && Dispatched(src, disk)
      ensures r == MapRows(Answer(old(validated), src, disk, SitedataQuery), rows => SiteRecords(codecs, rows))
    {
      var rows := ExecuteQuery(src, disk, SitedataQuery);
      r := MapRows(rows, rows => SiteRecords(codecs, rows));
    }

    /** `read_visits` */
    method ReadVisits(src: Source, disk: Disk) returns (r: Result<seq<Visit>, DbError>)
      requires Valid()
      modifies this
      ensures Valid() && Dispatched(src, disk)
      ensures r == MapRows(Answer(old(validated), src, disk, CombinedQuery), rows => CombinedRecords(codecs, rows))
    {
      var rows := ExecuteQuery(src, disk, CombinedQuery);
      r := MapRows(rows, rows => CombinedRecords(codecs, rows));
    }
  }
}

/** Callers of the reader, stating what each sees. */
module ReaderClients {
  import opened Wrappers
  import opened Records
  import opened PlacesDb
  import opened Merging
  import opened Combined
  import opened SourceReader
  import opened RowMapping

  /**
   * Checking the same path twice: a passing probe is remembered and not run
   * again, a failing one is not remembered and runs again.
   */
  method SanityCheckTwice(c: Codecs, path: string, disk: Disk)
    returns (first: Outcome<DbError>, second: Outcome<DbError>, ghost probeCount: nat)
    ensures first == second == Probe(disk, path)
    ensures probeCount == if first.Pass? then 1 else 2
  {
    var reader := new HistoryReader(c);
    first := reader.SanityCheck(StrPath(path), disk);
    second := reader.SanityCheck(StrPath(path), disk);
    probeCount := |reader.probes|;
  }

  /** A query on an open connection never runs the probe, even on a database without `moz_meta`. */
  method ConnectionSkipsProbe(c: Codecs, db: Database, disk: Disk)
    returns (r: Result<seq<Visit>, DbError>, ghost probeCount: nat)
    ensures r == Ok(CombinedRecords(c, CombinedQuery(db)))
    ensures probeCount == 0
  {
    var reader := new HistoryReader(c);
    r := reader.ReadVisits(Connection(db), disk);
    probeCount := |reader.probes|;
  }

  /** A path whose database lacks `moz_meta` yields an error and no rows, and is not remembered. */
  method MissingMozMetaYieldsNoRows(c: Codecs, path: string, disk: Disk)
    returns (r: Result<seq<MozVisit>, DbError>, remembered: bool)
    requires path in disk && !disk[path].hasMozMeta
    ensures r == Err(NotPlacesDb(path))
    ensures !remembered
  {
    var reader := new HistoryReader(c);
    r := reader.SingleDbVisits(PathObject(path), disk);
    remembered := PathObject(path) in reader.validated;
  }

  /**
   * Reading one database both ways on one reader, whatever its cache already
   * holds: the visit and sitedata queries followed by `single_db_merge`, and
   * `read_visits`. The results are equal.
   */
  method BothPathsAgree(reader: HistoryReader, src: Source, disk: Disk)
    returns (viaMerge: Result<seq<Visit>, DbError>, viaCombined: Result<seq<Visit>, DbError>)
    requires reader.Valid()
    modifies reader
    requires src.Connection? ==> UniquePlaceIds(src.db.places)
    requires src.IsPath() && src.path in disk ==> UniquePlaceIds(disk[src.path].places)
    ensures viaMerge.Ok? <==> viaCombined.Ok?
    ensures viaMerge.Ok? ==> viaMerge == viaCombined
  {
    var visits := reader.SingleDbVisits(src, disk);
    var sites := reader.SingleDbSitedata(src, disk);
    viaCombined := reader.ReadVisits(src, disk);
    if visits.Err? {
      viaMerge := Err(visits.error);
    } else {
      // the first query validated the path, so the second cannot fail
      assert sites.Ok?;
      var merged := SingleDbMerge(visits.value, sites.value);
      viaMerge := Ok(merged);
      var db := if src.Connection? then src.db else disk[src.path];
      CombinedQueryAgreesWithMerge(reader.codecs, db);
    }
  }
}
