/**
  A scan session over many Odoo sources: the session object, one run over a list of sources, and
  the retry handler's selection and requeueing (apps/edr/admin/odoo_scan_session.py, apps/edr/app.py).
*/
module ScanSession {
  import opened Wrappers
  import opened OdooScan

  datatype SessionState = SPending | SRunning | SCompleted | SPartial | SFailed

  datatype Session = Session(
    sessionId: string,
    projectCode: string,
    state: SessionState,
    sources: map<string, SourceScanState>,
    startedAt: string,
    updatedAt: string,
    finishedAt: Option<string>,
    summary: string,
    countSupported: Option<bool>)

  /** A registry entry, and whether the project mapping can scope a query for it. */
  datatype Source = Source(key: string, mapped: bool)

  predicate Settled(status: Status) {
    status != Pending && status != Running
  }

  // ---------------------------------------------------------------------------------------------
  // Progress, overall state, summary
  // ---------------------------------------------------------------------------------------------

  function CountWith(sources: map<string, SourceScanState>, status: Status): nat {
    |set k | k in sources && sources[k].status == status|
  }

  function DoneCount(sources: map<string, SourceScanState>): nat {
    |set k | k in sources && Settled(sources[k].status)|
  }

  function OverallState(sources: map<string, SourceScanState>): SessionState {
    if exists k :: k in sources && !Settled(sources[k].status) then SRunning
    else if forall k :: k in sources ==> sources[k].status in {Unmapped, Completed, Empty} then SCompleted
    else if forall k :: k in sources ==> sources[k].status in {Unmapped, Failed, Timeout} then SFailed
    else SPartial
  }

  /** A part of the summary sentence, left out when it counts nothing. */
  function Counted(n: nat, what: string): string {
    if n > 0 then "; " + Decimal(n) + what else ""
  }

  function SupportText(countSupported: Option<bool>): string {
    match countSupported
    case Some(true) => "; exact totals"
    case Some(false) => "; counts capped"
    case None => "; no sources scanned"
  }

  function Sentence(ok: nat, part: nat, bad: nat, unmapped: nat, all: nat, countSupported: Option<bool>): string {
    Decimal(ok) + "/" + Decimal(all) + " sources complete"
    + Counted(part, " partial/capped") + Counted(bad, " failed") + Counted(unmapped, " unmapped")
    + SupportText(countSupported)
  }

  function SummaryText(sources: map<string, SourceScanState>, countSupported: Option<bool>): string {
    Sentence(CountWith(sources, Completed) + CountWith(sources, Empty),
             CountWith(sources, Partial) + CountWith(sources, Capped),
             CountWith(sources, Failed) + CountWith(sources, Timeout),
             CountWith(sources, Unmapped), |sources|, countSupported)
  }

  // ---------------------------------------------------------------------------------------------
  // Reference definition of one run
  // ---------------------------------------------------------------------------------------------

  function Lookup(sources: map<string, SourceScanState>, key: string): Option<SourceScanState> {
    if key in sources then Some(sources[key]) else None
  }

  function Begin(srv: Server, v: Session, w: World): Session {
    v.(state := SRunning,
       startedAt := if v.startedAt != "" then v.startedAt else srv.iso(w.clock),
       updatedAt := srv.iso(w.clock))
  }

  /** The placeholder stored while a source is being scanned keeps the resume cursor. */
  function RunningRecord(key: string, prior: Option<SourceScanState>): SourceScanState {
    Fresh(key, Running).(pagesDone := PriorPages(prior), nextOffset := PriorOffset(prior))
  }

  function MarkRunning(srv: Server, v: Session, key: string, w: World): Session {
    v.(sources := v.sources[key := RunningRecord(key, Lookup(v.sources, key))], updatedAt := srv.iso(w.clock))
  }

  function LearnCountSupport(known: Option<bool>, result: SourceScanState): Option<bool> {
    if known.Some? then known
    else if result.total.Some? then Some(true)
    else if result.status == Capped then Some(false)
    else None
  }

  function StoreResult(srv: Server, v: Session, key: string, result: SourceScanState, w: World): Session {
    v.(sources := v.sources[key := result],
       countSupported := LearnCountSupport(v.countSupported, result),
       updatedAt := srv.iso(w.clock))
  }

  function Finish(srv: Server, v: Session, w: World): Session {
    v.(state := OverallState(v.sources),
       finishedAt := Some(srv.iso(w.clock)),
       updatedAt := srv.iso(w.clock),
       summary := SummaryText(v.sources, v.countSupported))
  }

  /** A snapshot handed to the progress callback, and the world at that moment. */
  datatype Emission = Emission(session: Session, at: World)

  /** The progress callback is awaited; it may take any time, and its failures are swallowed. */
  function Saved(srv: Server, w: World): World {
    w.(clock := w.clock + srv.saveDelays(w.saves), saves := w.saves + 1)
  }

  /** Where a run stands: the session, the world, and the snapshots emitted. */
  datatype Run = Run(session: Session, world: World, emitted: seq<Emission>)

  function RunSource(srv: Server, cfg: Config, source: Source, r: Run): Run {
    var prior := Lookup(r.session.sources, source.key);
    var marked := MarkRunning(srv, r.session, source.key, r.world);
    var scanned := Scan(srv, cfg, source.key, source.mapped, prior, Saved(srv, r.world));
    var stored := StoreResult(srv, marked, source.key, scanned.state, scanned.world);
    Run(stored, Saved(srv, scanned.world), r.emitted + [Emission(marked, r.world), Emission(stored, scanned.world)])
  }

  function RunSources(srv: Server, cfg: Config, sources: seq<Source>, r: Run): Run
    decreases |sources|
  {
    if sources == [] then r
    else RunSource(srv, cfg, sources[|sources| - 1], RunSources(srv, cfg, sources[..|sources| - 1], r))
  }

  lemma RunSourcesStep(srv: Server, cfg: Config, sources: seq<Source>, i: nat, start: Run, r: Run)
    requires i < |sources| && r == RunSources(srv, cfg, sources[..i], start)
    ensures
      var alone := RunSource(srv, cfg, sources[i], Run(r.session, r.world, []));
      RunSources(srv, cfg, sources[..i + 1], start) == Run(alone.session, alone.world, r.emitted + alone.emitted)
  {
    assert sources[..i + 1][..i] == sources[..i];
  }

  /** The start of a run, with its first snapshot saved. */
  function Begun(srv: Server, v: Session, w: World): Run {
    Run(Begin(srv, v, w), Saved(srv, w), [Emission(Begin(srv, v, w), w)])
  }

  function RunSession(srv: Server, cfg: Config, sources: seq<Source>, v: Session, w: World): Run {
    var r := RunSources(srv, cfg, sources, Begun(srv, v, w));
    var finished := Finish(srv, r.session, r.world);
    Run(finished, Saved(srv, r.world), r.emitted + [Emission(finished, r.world)])
  }

  // ---------------------------------------------------------------------------------------------
  // The session object
  // ---------------------------------------------------------------------------------------------

  class LiveSession {
    const sessionId: string
    const projectCode: string
    var state: SessionState
    var sources: map<string, SourceScanState>
    var startedAt: string
    var updatedAt: string
    var finishedAt: Option<string>
    var summary: string
    var countSupported: Option<bool>

    function View(): Session
      reads this
    {
      Session(sessionId, projectCode, state, sources, startedAt, updatedAt, finishedAt, summary, countSupported)
    }

    constructor (v: Session)
      ensures View() == v
    {
      sessionId, projectCode, state, sources := v.sessionId, v.projectCode, v.state, v.sources;
      startedAt, updatedAt, finishedAt := v.startedAt, v.updatedAt, v.finishedAt;
      summary, countSupported := v.summary, v.countSupported;
    }

    /** Hand a snapshot to the progress callback. */
    method Emit(backend: Backend) returns (e: Emission)
      modifies backend
      ensures e == Emission(View(), old(backend.world)) && View() == old(View())
      ensures backend.world == Saved(backend.server, old(backend.world))
    {
      e := Emission(View(), backend.world);
      backend.Advance(Saved(backend.server, backend.world));
    }

    /** Replace a source's record by a placeholder that keeps its resume cursor. */
    method Mark(srv: Server, key: string, w: World)
      modifies this`sources, this`updatedAt
      ensures View() == MarkRunning(srv, old(View()), key, w)
    {
      var running := Fresh(key, Running);
      if key in sources {
        running := running.(pagesDone := sources[key].pagesDone, nextOffset := sources[key].nextOffset);
      }
      sources := sources[key := running];
      updatedAt := srv.iso(w.clock);
    }

    /** Store a source's result, and learn from it whether counts are supported. */
    method Store(srv: Server, key: string, result: SourceScanState, w: World)
      modifies this`sources, this`updatedAt, this`countSupported
      ensures View() == StoreResult(srv, old(View()), key, result, w)
    {
      if countSupported.None? && result.total.Some? {
        countSupported := Some(true);
      } else if countSupported.None? && result.status == Capped {
        countSupported := Some(false);
      }
      sources := sources[key := result];
      updatedAt := srv.iso(w.clock);
    }

    /** One source: mark it running, scan it, store the result; both snapshots are emitted. */
    method ScanNext(backend: Backend, cfg: Config, source: Source) returns (marked: Emission, stored: Emission)
      modifies this, backend
      ensures Run(View(), backend.world, [marked, stored])
           == RunSource(backend.server, cfg, source, Run(old(View()), old(backend.world), []))
    {
      var prior := Lookup(sources, source.key);
      Mark(backend.server, source.key, backend.world);
      marked := Emit(backend);
      var result := ScanOneSource(backend, cfg, source.key, source.mapped, prior);
      Store(backend.server, source.key, result, backend.world);
      stored := Emit(backend);
    }

    method Start(srv: Server, w: World)
      modifies this`state, this`startedAt, this`updatedAt
      ensures View() == Begin(srv, old(View()), w)
    {
      state := SRunning;
      startedAt := if startedAt != "" then startedAt else srv.iso(w.clock);
      updatedAt := srv.iso(w.clock);
    }

    /** Scan `toScan` in order, isolating each; returns the snapshots emitted on the way. */
    method RunScan(backend: Backend, cfg: Config, toScan: seq<Source>) returns (emitted: seq<Emission>)
      modifies this, backend
      ensures Run(View(), backend.world, emitted)
           == RunSession(backend.server, cfg, toScan, old(View()), old(backend.world))
    {
      Start(backend.server, backend.world);
      var first := Emit(backend);
      emitted := ScanAll(backend, cfg, toScan, [first]);
      Conclude(backend.server, backend.world);
      var last := Emit(backend);
      emitted := emitted + [last];
    }

    method ScanAll(backend: Backend, cfg: Config, toScan: seq<Source>, first: seq<Emission>)
      returns (emitted: seq<Emission>)
      modifies this, backend
      ensures Run(View(), backend.world, emitted)
           == RunSources(backend.server, cfg, toScan, Run(old(View()), old(backend.world), first))
    {
      emitted := first;
      ghost var start := Run(View(), backend.world, first);
      for i := 0 to |toScan|
        invariant Run(View(), backend.world, emitted) == RunSources(backend.server, cfg, toScan[..i], start)
      {
        RunSourcesStep(backend.server, cfg, toScan, i, start, Run(View(), backend.world, emitted));
        var marked, stored := ScanNext(backend, cfg, toScan[i]);
        emitted := emitted + [marked, stored];
      }
      assert toScan[..|toScan|] == toScan;
    }

    /** The overall state and the summary sentence. */
    method SetOutcome()
      modifies this`state, this`summary
      ensures state == OverallState(sources) && summary == SummaryText(sources, countSupported)
    {
      state := OverallState(sources);
      summary := SummaryText(sources, countSupported);
    }

    method Conclude(srv: Server, w: World)
      modifies this
      ensures View() == Finish(srv, old(View()), w)
    {
      SetOutcome();
      finishedAt := Some(srv.iso(w.clock));
      updatedAt := srv.iso(w.clock);
    }

    /** The retry handler: select, requeue, run again; nothing happens when nothing is selected. */
    method RetryScan(backend: Backend, cfg: Config, registry: seq<Source>, mode: RetryMode)
      returns (emitted: seq<Emission>)
      modifies this, backend
      ensures Run(View(), backend.world, emitted)
           == Retry(backend.server, cfg, registry, mode, old(View()), old(backend.world))
    {
      emitted := [];
      var keys := SelectRetryKeys(sources, mode);
      if keys == {} {
        return;
      }
      Requeue(keys);
      emitted := RunScan(backend, cfg, SourcesForKeys(registry, keys));
    }

    /** The retry handler's reset: queue `keys` again, keeping only their cursors. */
    method Requeue(keys: set<string>)
      requires keys <= sources.Keys
      modifies this
      ensures View() == Requeued(old(View()), keys)
    {
      sources := map k | k in sources ::
        if k in keys
        then Fresh(k, Pending).(pagesDone := sources[k].pagesDone, nextOffset := sources[k].nextOffset)
        else sources[k];
      state := SRunning;
    }
  }

  // ---------------------------------------------------------------------------------------------
  // Full scans and retries
  // ---------------------------------------------------------------------------------------------

  function InitFull(srv: Server, projectCode: string, sessionId: string, registry: seq<Source>, w: World): Session {
    Session(sessionId, projectCode, SPending,
            map s <- registry :: s.key := Fresh(s.key, Pending),
            srv.iso(w.clock), srv.iso(w.clock), None, "", None)
  }

  datatype RetryMode = RetryFailed | RetryIncomplete

  predicate Selected(mode: RetryMode, status: Status) {
    match mode
    case RetryFailed => status in {Failed, Timeout}
    case RetryIncomplete => status in {Failed, Timeout, Partial, Capped, Pending, Running}
  }

  function SelectRetryKeys(sources: map<string, SourceScanState>, mode: RetryMode): set<string> {
    set k | k in sources && Selected(mode, sources[k].status)
  }

  function Requeued(v: Session, keys: set<string>): Session {
    v.(sources := map k | k in v.sources ::
         if k in keys
         then Fresh(k, Pending).(pagesDone := v.sources[k].pagesDone, nextOffset := v.sources[k].nextOffset)
         else v.sources[k],
       state := SRunning)
  }

  /** The registry entries for a set of keys, in registry order. */
  function SourcesForKeys(registry: seq<Source>, keys: set<string>): seq<Source> {
    if registry == [] then []
    else (if registry[0].key in keys then [registry[0]] else []) + SourcesForKeys(registry[1..], keys)
  }

  /** One retry: nothing at all happens when no source is selected. */
  function Retry(srv: Server, cfg: Config, registry: seq<Source>, mode: RetryMode, v: Session, w: World): Run {
    var keys := SelectRetryKeys(v.sources, mode);
    if keys == {} then Run(v, w, [])
    else RunSession(srv, cfg, SourcesForKeys(registry, keys), Requeued(v, keys), w)
  }
}
