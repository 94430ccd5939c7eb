/**
  The scan of one Odoo source: one `search_count`, then a bounded, resumable sequence of
  `search_read` pages (apps/edr/admin/odoo_scan_session.py).

  The server is a fixed table per source together with an arbitrary script of replies: the n-th
  call may answer, raise, or stay silent, after any delay.
*/
module OdooScan {
  import opened Wrappers

  type Row = string

  /** What the server does on one call. */
  datatype Reply<+T> = Answer(after: nat, value: T) | Fault(after: nat, message: string) | Silent

  /** What the awaiting caller observes. */
  datatype CallResult<+T> = Done(value: T) | Raised(message: string) | TimedOut

  datatype Read = Read(key: string, offset: nat, limit: nat, outcome: CallResult<seq<Row>>)

  /** The clock, the number of server calls and of progress saves made so far, and the reads issued. */
  datatype World = World(clock: nat, calls: nat, saves: nat, history: seq<Read>)

  /**
    `countReplies(n)` and `readReplies(n)` script the n-th call, `saveDelays(n)` is the time the
    n-th progress save takes, and `iso` renders the clock as a timestamp.
  */
  datatype Server = Server(
    tables: string -> seq<Row>,
    countReplies: nat -> Reply<Option<int>>,
    readReplies: nat -> Reply<()>,
    saveDelays: nat -> nat,
    iso: nat -> string)

  datatype Config = Config(pageSize: nat, sampleTarget: nat, maxPages: nat, batchTimeout: nat, sourceTimeout: nat)
  {
    /** The one setting bound the cursor arithmetic relies on. */
    predicate Valid() { pageSize >= 1 }

    /** The longest one source can take. */
    function SourceBound(): nat {
      (if sourceTimeout >= batchTimeout then sourceTimeout else batchTimeout) + batchTimeout
    }
  }

  datatype Status =
    | Pending | Running | Completed | Partial | Capped | Empty | Failed | Timeout | Unmapped | NotScanned

  datatype SourceScanState = SourceScanState(
    key: string,
    status: Status,
    count: Option<int>,
    total: Option<int>,
    capped: bool,
    complete: bool,
    error: Option<string>,
    durationMs: Option<nat>,
    lastScannedAt: Option<string>,
    pagesDone: nat,
    nextOffset: nat)

  /** A freshly constructed record: every field but the key and the status at its default. */
  function Fresh(key: string, status: Status): SourceScanState {
    SourceScanState(key, status, None, None, false, false, None, None, None, 0, 0)
  }

  // ---------------------------------------------------------------------------------------------
  // Calls with a timeout
  // ---------------------------------------------------------------------------------------------

  function Observed<T>(reply: Reply<T>, timeout: nat): CallResult<T> {
    match reply
    case Answer(after, v) => if after <= timeout then Done(v) else TimedOut
    case Fault(after, m) => if after <= timeout then Raised(m) else TimedOut
    case Silent => TimedOut
  }

  function Elapsed<T>(reply: Reply<T>, timeout: nat): (t: nat)
    ensures t <= timeout
  {
    match reply
    case Silent => timeout
    case _ => if reply.after <= timeout then reply.after else timeout
  }

  /** The rows a server that honours `offset` and `limit` returns. */
  function PageOf(table: seq<Row>, offset: nat, limit: nat): (page: seq<Row>)
    ensures |page| <= limit
    ensures forall i :: 0 <= i < |page| ==> offset + i < |table| && page[i] == table[offset + i]
    ensures |page| < limit ==> offset + |page| >= |table|
  {
    if offset >= |table| then []
    else if offset + limit <= |table| then table[offset..offset + limit]
    else table[offset..]
  }

  datatype Counted = Counted(result: CallResult<Option<int>>, world: World)
  datatype Paged = Paged(result: CallResult<seq<Row>>, world: World)

  function CountCall(srv: Server, timeout: nat, w: World): Counted {
    var reply := srv.countReplies(w.calls);
    Counted(Observed(reply, timeout), w.(clock := w.clock + Elapsed(reply, timeout), calls := w.calls + 1))
  }

  function ReadCall(srv: Server, cfg: Config, key: string, offset: nat, w: World): Paged {
    var reply := srv.readReplies(w.calls);
    var result := match Observed(reply, cfg.batchTimeout)
      case Done(_) => Done(PageOf(srv.tables(key), offset, cfg.pageSize))
      case Raised(m) => Raised(m)
      case TimedOut => TimedOut;
    Paged(result, w.(clock := w.clock + Elapsed(reply, cfg.batchTimeout), calls := w.calls + 1,
                     history := w.history + [Read(key, offset, cfg.pageSize, result)]))
  }

  // ---------------------------------------------------------------------------------------------
  // Reference definition of the scan
  // ---------------------------------------------------------------------------------------------

  /** The loop variables of the paging loop. */
  datatype Cursor = Cursor(seen: nat, offset: nat, pages: nat)

  /** Why the paging loop ended. */
  datatype Stop = Reached | Short | Deadline | ReadTimedOut | ReadRaised(message: string)
  {
    predicate Interrupted() { Deadline? || ReadTimedOut? || ReadRaised? }
  }

  datatype Paging = Paging(cursor: Cursor, stop: Stop, world: World)

  function Pages(srv: Server, cfg: Config, key: string, target: int, deadline: nat, c: Cursor, w: World): Paging
    decreases cfg.maxPages - c.pages
  {
    if c.seen >= target || c.pages >= cfg.maxPages then Paging(c, Reached, w)
    else if w.clock >= deadline then Paging(c, Deadline, w)
    else
      var call := ReadCall(srv, cfg, key, c.offset, w);
      match call.result
      case TimedOut => Paging(c, ReadTimedOut, call.world)
      case Raised(m) => Paging(c, ReadRaised(m), call.world)
      case Done(batch) =>
        var next := Cursor(c.seen + |batch|, c.offset + cfg.pageSize, c.pages + 1);
        if |batch| < cfg.pageSize then Paging(next, Short, call.world)
        else Pages(srv, cfg, key, target, deadline, next, call.world)
  }

  datatype Scanned = Scanned(state: SourceScanState, world: World)

  function Stamp(srv: Server, start: World, w: World, st: SourceScanState): Scanned {
    Scanned(st.(durationMs := Some(if w.clock >= start.clock then w.clock - start.clock else 0),
                lastScannedAt := Some(srv.iso(w.clock))), w)
  }

  const COUNT_TIMEOUT_MESSAGE := "search_count timed out"
  const READ_TIMEOUT_MESSAGE := "search_read timed out"

  /** The legacy fallback: one page at offset 0, whatever the prior cursor. */
  function LegacyResult(cfg: Config, st: SourceScanState, page: CallResult<seq<Row>>): SourceScanState {
    match page
    case TimedOut => st.(status := Timeout, error := Some(READ_TIMEOUT_MESSAGE))
    case Raised(m) => st.(status := Failed, error := Some("search_read: " + m))
    case Done(batch) =>
      var read := st.(pagesDone := 1, nextOffset := cfg.pageSize, count := Some(|batch|));
      if |batch| == 0 then read.(complete := true, status := Empty)
      else if |batch| >= cfg.pageSize then read.(complete := false, capped := true, status := Capped)
      else read.(complete := true, status := Completed)
  }

  function PriorOffset(prior: Option<SourceScanState>): nat {
    match prior
    case Some(p) => p.nextOffset
    case None => 0
  }

  function PriorPages(prior: Option<SourceScanState>): nat {
    match prior
    case Some(p) => p.pagesDone
    case None => 0
  }

  function Target(cfg: Config, total: int): int {
    if total <= cfg.sampleTarget then total else cfg.sampleTarget
  }

  /** The counted path: the paging run from the prior cursor, and the record it leaves. */
  function SampleRun(srv: Server, cfg: Config, key: string, total: int, prior: Option<SourceScanState>,
                     t0: nat, w: World): Paging
  {
    Pages(srv, cfg, key, Target(cfg, total), t0 + cfg.sourceTimeout, Cursor(0, PriorOffset(prior), 0), w)
  }

  function CountedResult(st: SourceScanState, total: int, prior: Option<SourceScanState>, c: Cursor,
                         stop: Stop): SourceScanState
  {
    var known := st.(total := Some(total), count := Some(total));
    if stop.ReadTimedOut? && c.pages == 0 then
      known.(status := Timeout, error := Some(READ_TIMEOUT_MESSAGE))
    else if stop.ReadRaised? && c.pages == 0 then
      known.(status := Failed, error := Some("search_read: " + stop.message))
    else
      known.(pagesDone := PriorPages(prior) + c.pages,
             nextOffset := c.offset,
             complete := !stop.Interrupted(),
             status := if stop.Interrupted() then Partial else Completed)
  }

  function Scan(srv: Server, cfg: Config, key: string, mapped: bool, prior: Option<SourceScanState>, w: World): Scanned
  {
    var st := Fresh(key, Running);
    if !mapped then
      Scanned(st.(status := Unmapped, durationMs := Some(0), lastScannedAt := Some(srv.iso(w.clock))), w)
    else
      var count := CountCall(srv, cfg.batchTimeout, w);
      match count.result
      case TimedOut => Stamp(srv, w, count.world, st.(status := Timeout, error := Some(COUNT_TIMEOUT_MESSAGE)))
      case Raised(m) => Stamp(srv, w, count.world, st.(status := Failed, error := Some("search_count: " + m)))
      case Done(None) =>
        var page := ReadCall(srv, cfg, key, 0, count.world);
        Stamp(srv, w, page.world, LegacyResult(cfg, st, page.result))
      case Done(Some(total)) =>
        if total == 0 then
          Stamp(srv, w, count.world, st.(total := Some(0), count := Some(0), complete := true, status := Empty))
        else
          var run := SampleRun(srv, cfg, key, total, prior, w.clock, count.world);
          Stamp(srv, w, run.world, CountedResult(st, total, prior, run.cursor, run.stop))
  }

  // ---------------------------------------------------------------------------------------------
  // The scan as the program runs it
  // ---------------------------------------------------------------------------------------------

  /** The connector: the two calls the engine awaits. */
  class Backend {
    const server: Server
    var world: World

    constructor (server: Server, world: World)
      ensures this.server == server && this.world == world
    {
      this.server, this.world := server, world;
    }

    /** The world moves on while something else is awaited. */
    method Advance(later: World)
      modifies this
      ensures world == later
    {
      world := later;
    }

    method Count(timeout: nat) returns (r: CallResult<Option<int>>)
      modifies this
      ensures Counted(r, world) == CountCall(server, timeout, old(world))
    {
      var call := CountCall(server, timeout, world);
      r, world := call.result, call.world;
    }

    method ReadPage(cfg: Config, key: string, offset: nat) returns (r: CallResult<seq<Row>>)
      modifies this
      ensures Paged(r, world) == ReadCall(server, cfg, key, offset, old(world))
    {
      var call := ReadCall(server, cfg, key, offset, world);
      r, world := call.result, call.world;
    }
  }

  /** The paging loop of the counted path. */
  method ReadSample(backend: Backend, cfg: Config, key: string, target: int, deadline: nat, from: nat)
    returns (c: Cursor, stop: Stop)
    modifies backend
    ensures Paging(c, stop, backend.world)
         == Pages(backend.server, cfg, key, target, deadline, Cursor(0, from, 0), old(backend.world))
  {
    var seen: nat, offset: nat, pages: nat := 0, from, 0;
    stop := Reached;
    ghost var whole := Pages(backend.server, cfg, key, target, deadline, Cursor(0, from, 0), backend.world);
    while seen < target && pages < cfg.maxPages
      invariant stop == Reached
      invariant whole == Pages(backend.server, cfg, key, target, deadline, Cursor(seen, offset, pages), backend.world)
      decreases cfg.maxPages - pages
    {
      if backend.world.clock >= deadline {
        stop := Deadline;
        break;
      }
      var page := backend.ReadPage(cfg, key, offset);
      if page.TimedOut? {
        stop := ReadTimedOut;
        break;
      }
      if page.Raised? {
        stop := ReadRaised(page.message);
        break;
      }
      var n := |page.value|;
      seen, pages, offset := seen + n, pages + 1, offset + cfg.pageSize;
      if n < cfg.pageSize {
        stop := Short;
        break;
      }
    }
    c := Cursor(seen, offset, pages);
  }

  method ScanOneSource(backend: Backend, cfg: Config, key: string, mapped: bool, prior: Option<SourceScanState>)
    returns (st: SourceScanState)
    modifies backend
    ensures Scanned(st, backend.world) == Scan(backend.server, cfg, key, mapped, prior, old(backend.world))
  {
    var t0 := backend.world.clock;
    st := Fresh(key, Running);
    if !mapped {
      st := st.(status := Unmapped, complete := false, durationMs := Some(0),
                lastScannedAt := Some(backend.server.iso(t0)));
      return;
    }
    var counted := backend.Count(cfg.batchTimeout);
    if counted.TimedOut? {
      st := st.(status := Timeout, error := Some(COUNT_TIMEOUT_MESSAGE));
    } else if counted.Raised? {
      st := st.(status := Failed, error := Some("search_count: " + counted.message));
    } else if counted.value.None? {
      st := ScanLegacyPage(backend, cfg, st);
    } else if counted.value.value == 0 {
      st := st.(total := Some(0), count := Some(0), complete := true, status := Empty);
    } else {
      st := ScanSample(backend, cfg, st, counted.value.value, prior, t0);
    }
    st := st.(durationMs := Some(if backend.world.clock >= t0 then backend.world.clock - t0 else 0),
              lastScannedAt := Some(backend.server.iso(backend.world.clock)));
  }

  /** The counted path, before the closing timestamps. */
  method ScanSample(backend: Backend, cfg: Config, start: SourceScanState, total: int, prior: Option<SourceScanState>,
                    t0: nat) returns (st: SourceScanState)
    modifies backend
    ensures
      var run := SampleRun(backend.server, cfg, start.key, total, prior, t0, old(backend.world));
      backend.world == run.world && st == CountedResult(start, total, prior, run.cursor, run.stop)
  {
    var offset := if prior.Some? && prior.value.nextOffset != 0 then prior.value.nextOffset else 0;
    var c, stop := ReadSample(backend, cfg, start.key, Target(cfg, total), t0 + cfg.sourceTimeout, offset);
    st := start.(total := Some(total), count := Some(total));
    if stop.ReadTimedOut? && c.pages == 0 {
      st := st.(status := Timeout, error := Some(READ_TIMEOUT_MESSAGE));
    } else if stop.ReadRaised? && c.pages == 0 {
      st := st.(status := Failed, error := Some("search_read: " + stop.message));
    } else {
      st := st.(pagesDone := (if prior.Some? then prior.value.pagesDone else 0) + c.pages,
                nextOffset := c.offset,
                complete := !stop.Interrupted(),
                status := if stop.Interrupted() then Partial else Completed);
    }
  }

  /** The legacy fallback, before the closing timestamps. */
  method ScanLegacyPage(backend: Backend, cfg: Config, start: SourceScanState) returns (st: SourceScanState)
    modifies backend
    ensures backend.world == ReadCall(backend.server, cfg, start.key, 0, old(backend.world)).world
    ensures st == LegacyResult(cfg, start, ReadCall(backend.server, cfg, start.key, 0, old(backend.world)).result)
  {
    st := start;
    var page := backend.ReadPage(cfg, start.key, 0);
    if page.TimedOut? {
      st := st.(status := Timeout, error := Some(READ_TIMEOUT_MESSAGE));
    } else if page.Raised? {
      st := st.(status := Failed, error := Some("search_read: " + page.message));
    } else {
      var n := |page.value|;
      st := st.(pagesDone := 1, nextOffset := cfg.pageSize);
      if n == 0 {
        st := st.(count := Some(0), complete := true, status := Empty);
      } else if n >= cfg.pageSize {
        st := st.(count := Some(n), complete := false, capped := true, status := Capped);
      } else {
        st := st.(count := Some(n), complete := true, status := Completed);
      }
    }
  }
}
