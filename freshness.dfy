/** The cache in front of the analysis: a store holding the latest verdict per ticker,
    the freshness gate that decides between reusing it and recomputing, and the
    per-ticker entry point. Timestamps are integers in microseconds, the resolution of
    Python's datetime. */
module Freshness {
  import opened Numbers
  import opened Scanner

  const MicrosPerDay: int := 86400000000

  /** A stored verdict and its updated_at (None when the column is NULL). */
  datatype Record = Record(result: Result, updatedAt: Option<int>)

  /** What reading the store gave: a failed read, no row, or the row. */
  datatype Lookup = ReadFailed | NotFound | Found(record: Record)

  datatype Decision = Reuse(record: Record) | Recompute

  /** The comparison as written: now - updated_at < timedelta(days=window). */
  predicate WithinWindowAsWritten(now: int, updatedAt: int, days: nat) {
    now - updatedAt < days * MicrosPerDay
  }

  /** A record is fresh when caching is on and its age is below the window. */
  predicate WithinWindow(now: int, updatedAt: int, days: nat) {
    days > 0 && now - updatedAt < days * MicrosPerDay
  }

  /** The gate: reuse exactly when a row was read, it has a timestamp and it is fresh;
      a failed read and a NULL timestamp (the subtraction raises) both recompute. */
  function Gate(l: Lookup, now: int, days: nat): (d: Decision)
    ensures d.Reuse? <==>
      l.Found? && l.record.updatedAt.Some? && WithinWindow(now, l.record.updatedAt.value, days)
    ensures d.Reuse? ==> d.record == l.record
  {
    if l.Found? && l.record.updatedAt.Some? && WithinWindow(now, l.record.updatedAt.value, days)
    then Reuse(l.record)
    else Recompute
  }

  /** The window boundary: an age of exactly the window recomputes, one microsecond less
      reuses; a window of 0 never reuses. */
  lemma GateBoundary(r: Result, now: int, days: nat)
    ensures Gate(Found(Record(r, Some(now - days * MicrosPerDay))), now, days) == Recompute
    ensures days > 0 ==>
      Gate(Found(Record(r, Some(now - days * MicrosPerDay + 1))), now, days) == Reuse(Record(r, Some(now - days * MicrosPerDay + 1)))
    ensures forall l :: Gate(l, now, 0) == Recompute
  {
  }

  /** The latest verdict per ticker; keyed by ticker, so at most one record each. */
  class Store {
    var records: map<string, Record>

    constructor ()
      ensures records == map[]
    {
      records := map[];
    }

    /** Read the latest row for a ticker; readOk false models a failing connection. */
    method Latest(ticker: string, readOk: bool) returns (l: Lookup)
      ensures !readOk ==> l == ReadFailed
      ensures readOk && ticker in records ==> l == Found(records[ticker])
      ensures readOk && ticker !in records ==> l == NotFound
    {
      if !readOk {
        return ReadFailed;
      }
      l := if ticker in records then Found(records[ticker]) else NotFound;
    }

    /** Insert or overwrite the ticker's row, stamped with the write time; a failed write
      is silently lost. */
    method Upsert(ticker: string, r: Result, now: int, writeOk: bool)
      modifies this
      ensures writeOk ==> records == old(records)[ticker := Record(r, Some(now))]
      ensures !writeOk ==> records == old(records)
    {
      if writeOk {
        records := records[ticker := Record(r, Some(now))];
      }
    }

    /** One ticker end to end: a fresh cached row short-circuits everything; otherwise
        analyze and, when the analysis produced a verdict, upsert it. */
    method AnalyzeStock(ticker: string, f: Fetched, cfg: Config, now: int, readOk: bool, writeOk: bool)
      modifies this
      ensures var l := if !readOk then ReadFailed
                       else if ticker in old(records) then Found(old(records)[ticker]) else NotFound;
        Gate(l, now, cfg.cacheDays).Reuse? ==> records == old(records)
      ensures var l := if !readOk then ReadFailed
                       else if ticker in old(records) then Found(old(records)[ticker]) else NotFound;
        Gate(l, now, cfg.cacheDays).Recompute? ==>
          records == if Analyze(f, cfg).Some? && writeOk
                     then old(records)[ticker := Record(Analyze(f, cfg).value, Some(now))]
                     else old(records)
      ensures forall t :: t != ticker ==> (t in records <==> t in old(records))
      ensures forall t :: t != ticker && t in records ==> records[t] == old(records)[t]
    {
      var cached := Latest(ticker, readOk);
      var decision := Gate(cached, now, cfg.cacheDays);
      if decision.Reuse? {
        return;
      }
      var res := AnalyzeFresh(f, cfg);
      if res.Some? {
        Upsert(ticker, res.value, now, writeOk);
      }
    }
  }
}
