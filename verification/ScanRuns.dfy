/**
  All runs of the scan service: full scans, retries of either mode on the live session or on any
  stored snapshot, workers lost at any point of any of these, and restarts, in any order, against
  a server that may fail at any call. Every snapshot handed to the progress callback is stored.
*/
module ScanRuns {
  import opened Wrappers
  import opened OdooScan
  import opened OdooScanLaws
  import opened ScanSession
  import opened ScanSessionLaws
  import opened ScanSnapshot

  datatype System = System(live: Option<Session>, stored: seq<Json>, world: World)

  /** What an operator can ask for. */
  datatype Request =
    | FullScan(sessionId: string, projectCode: string, registry: seq<Source>)
    | RetryLive(mode: RetryMode, registry: seq<Source>)
    | RetryStored(copy: nat, mode: RetryMode, registry: seq<Source>)

  /** A request served to its end, a request whose worker is lost on the way, or an idle worker's restart. */
  datatype Op =
    | Serve(request: Request)
    | Lose(request: Request, kept: nat, at: World)
    | Restart

  function Snapshots(emitted: seq<Emission>): (r: seq<Json>)
    ensures |r| == |emitted|
    ensures forall i :: 0 <= i < |r| ==> r[i] == Snapshot(emitted[i].session)
  {
    seq(|emitted|, i requires 0 <= i < |emitted| => Snapshot(emitted[i].session))
  }

  /** The copies stored before the run, and the run the request starts, if it starts one. */
  datatype Start = Start(stored: seq<Json>, run: Run)

  function Launch(srv: Server, cfg: Config, sys: System, request: Request): Option<Start> {
    match request
    case FullScan(id, code, registry) =>
      var queued := InitFull(srv, code, id, registry, sys.world);
      Some(Start(sys.stored + [Snapshot(queued)], RunSession(srv, cfg, registry, queued, sys.world)))
    case RetryLive(mode, registry) =>
      // a session that is still pending or running is only reported, never started twice
      if sys.live.None? || sys.live.value.state in {SPending, SRunning} then None
      else Relaunch(srv, cfg, sys, mode, registry, sys.live.value)
    case RetryStored(i, mode, registry) =>
      if i >= |sys.stored| || FromSnapshot(sys.stored[i]).None? then None
      else Relaunch(srv, cfg, sys, mode, registry, FromSnapshot(sys.stored[i]).value)
  }

  /** A retry that selects nothing starts no run and registers no session. */
  function Relaunch(srv: Server, cfg: Config, sys: System, mode: RetryMode, registry: seq<Source>,
                    v: Session): Option<Start>
  {
    if SelectRetryKeys(v.sources, mode) == {} then None
    else Some(Start(sys.stored, Retry(srv, cfg, registry, mode, v, sys.world)))
  }

  /** The reads made when the worker was lost, after `kept` snapshots: no fewer than then, no more than at the next. */
  predicate LostAt(start: World, run: Run, kept: nat, at: World) {
    && kept <= |run.emitted|
    && (if kept == 0 then start.history else run.emitted[kept - 1].at.history) <= at.history
    && at.history <= if kept == |run.emitted| then run.world.history else run.emitted[kept].at.history
  }

  function Step(srv: Server, cfg: Config, sys: System, op: Op): System {
    match op
    case Serve(request) =>
      (match Launch(srv, cfg, sys, request)
       case None => sys
       case Some(start) =>
         System(Some(start.run.session), start.stored + Snapshots(start.run.emitted), start.run.world))
    case Lose(request, kept, at) =>
      (match Launch(srv, cfg, sys, request)
       case None => sys
       case Some(start) =>
         if !LostAt(sys.world, start.run, kept, at) then sys
         else System(None, start.stored + Snapshots(start.run.emitted[..kept]), at))
    case Restart => sys.(live := None)
  }

  function Reached(srv: Server, cfg: Config, sys: System, ops: seq<Op>): System
    decreases |ops|
  {
    if ops == [] then sys
    else Step(srv, cfg, Reached(srv, cfg, sys, ops[..|ops| - 1]), ops[|ops| - 1])
  }

  // ---------------------------------------------------------------------------------------------
  // The invariant
  // ---------------------------------------------------------------------------------------------

  ghost predicate SessionSound(srv: Server, cfg: Config, v: Session, history: seq<Read>) {
    forall k :: k in v.sources ==> v.sources[k].key == k && CursorSound(srv, cfg, v.sources[k], history)
  }

  /** Every snapshot is sound by the reads made when it was emitted, and these only grow up to `history`. */
  ghost predicate EmissionsSound(srv: Server, cfg: Config, emitted: seq<Emission>, history: seq<Read>) {
    && (forall i :: 0 <= i < |emitted| ==> SessionSound(srv, cfg, emitted[i].session, emitted[i].at.history))
    && (forall i :: 0 <= i < |emitted| ==> emitted[i].at.history <= history)
    && (forall i, j :: 0 <= i <= j < |emitted| ==> emitted[i].at.history <= emitted[j].at.history)
  }

  /** A run from a world with `earlier` reads: sound at every emission and at its end. */
  ghost predicate RunSound(srv: Server, cfg: Config, r: Run, earlier: seq<Read>) {
    && earlier <= r.world.history
    && SessionSound(srv, cfg, r.session, r.world.history)
    && EmissionsSound(srv, cfg, r.emitted, r.world.history)
    && (forall i :: 0 <= i < |r.emitted| ==> earlier <= r.emitted[i].at.history)
  }

  ghost predicate SystemSound(srv: Server, cfg: Config, sys: System) {
    && (sys.live.Some? ==> SessionSound(srv, cfg, sys.live.value, sys.world.history))
    && StoreSound(srv, cfg, sys.stored, sys.world.history)
  }

  ghost predicate StoreSound(srv: Server, cfg: Config, stored: seq<Json>, history: seq<Read>) {
    forall i :: 0 <= i < |stored| ==> CopySound(srv, cfg, stored[i], history)
  }

  /** A stored copy restores to a sound session. */
  ghost predicate CopySound(srv: Server, cfg: Config, copy: Json, history: seq<Read>) {
    FromSnapshot(copy).Some? && SessionSound(srv, cfg, FromSnapshot(copy).value, history)
  }

  lemma SoundnessSurvives(srv: Server, cfg: Config, v: Session, earlier: seq<Read>, later: seq<Read>)
    requires SessionSound(srv, cfg, v, earlier) && earlier <= later
    ensures SessionSound(srv, cfg, v, later)
  {
    forall k | k in v.sources
      ensures CursorSound(srv, cfg, v.sources[k], later)
    {
      CoverageSurvives(srv, k, v.sources[k].nextOffset, earlier, later);
    }
  }

  /** The two snapshots of one source, each sound by the reads made when it was emitted. */
  lemma SourceKeepsSound(srv: Server, cfg: Config, source: Source, r: Run)
    requires SessionSound(srv, cfg, r.session, r.world.history)
    ensures
      var next := RunSource(srv, cfg, source, r);
      var n := |r.emitted|;
      && |next.emitted| == n + 2 && r.emitted <= next.emitted
      && next.emitted[n].at.history == r.world.history
      && r.world.history <= next.emitted[n + 1].at.history == next.world.history
      && SessionSound(srv, cfg, next.emitted[n].session, next.emitted[n].at.history)
      && SessionSound(srv, cfg, next.emitted[n + 1].session, next.world.history)
      && next.session == next.emitted[n + 1].session
  {
    var key := source.key;
    var prior, saved := Lookup(r.session.sources, key), Saved(srv, r.world);
    ScanKeepsCursorSound(srv, cfg, key, source.mapped, prior, saved);
    ScanKeepsHistory(srv, cfg, key, source.mapped, prior, saved);
    var scanned := Scan(srv, cfg, key, source.mapped, prior, saved);
    var marked := MarkRunning(srv, r.session, key, r.world);
    assert CursorSound(srv, cfg, RunningRecord(key, prior), r.world.history);
    assert SessionSound(srv, cfg, marked, r.world.history);
    SoundnessSurvives(srv, cfg, marked, r.world.history, scanned.world.history);
    assert SessionSound(srv, cfg, StoreResult(srv, marked, key, scanned.state, scanned.world), scanned.world.history);
  }

  lemma EmissionsGrow(srv: Server, cfg: Config, before: seq<Emission>, after: seq<Emission>, mid: seq<Read>,
                      end: seq<Read>)
    requires EmissionsSound(srv, cfg, before, mid)
    requires before <= after && mid <= end
    requires forall i :: |before| <= i < |after| ==>
      && SessionSound(srv, cfg, after[i].session, after[i].at.history)
      && mid <= after[i].at.history <= end
    requires forall i, j :: |before| <= i <= j < |after| ==> after[i].at.history <= after[j].at.history
    ensures EmissionsSound(srv, cfg, after, end)
  {
    forall i | 0 <= i < |before|
      ensures after[i] == before[i]
    {}
  }

  /** A run keeps every snapshot it emits sound, at every stage. */
  lemma {:induction false} SourcesKeepSound(srv: Server, cfg: Config, sources: seq<Source>, r: Run, earlier: seq<Read>)
    requires RunSound(srv, cfg, r, earlier)
    ensures RunSound(srv, cfg, RunSources(srv, cfg, sources, r), earlier)
    decreases |sources|
  {
    if sources != [] {
      var n := |sources| - 1;
      SourcesKeepSound(srv, cfg, sources[..n], r, earlier);
      OneMoreKeepsSound(srv, cfg, sources[n], RunSources(srv, cfg, sources[..n], r), earlier);
    }
  }

  lemma OneMoreKeepsSound(srv: Server, cfg: Config, source: Source, r: Run, earlier: seq<Read>)
    requires RunSound(srv, cfg, r, earlier)
    ensures RunSound(srv, cfg, RunSource(srv, cfg, source, r), earlier)
  {
    SourceKeepsSound(srv, cfg, source, r);
    var next := RunSource(srv, cfg, source, r);
    EmissionsGrow(srv, cfg, r.emitted, next.emitted, r.world.history, next.world.history);
  }

  lemma RunKeepsSound(srv: Server, cfg: Config, sources: seq<Source>, v: Session, w: World)
    requires SessionSound(srv, cfg, v, w.history)
    ensures RunSound(srv, cfg, RunSession(srv, cfg, sources, v, w), w.history)
  {
    assert SessionSound(srv, cfg, Begin(srv, v, w), w.history);
    SourcesKeepSound(srv, cfg, sources, Begun(srv, v, w), w.history);
    var mid, end := RunSources(srv, cfg, sources, Begun(srv, v, w)), RunSession(srv, cfg, sources, v, w);
    assert SessionSound(srv, cfg, Finish(srv, mid.session, mid.world), mid.world.history);
    EmissionsGrow(srv, cfg, mid.emitted, end.emitted, mid.world.history, end.world.history);
  }

  lemma RetryKeepsSound(srv: Server, cfg: Config, registry: seq<Source>, mode: RetryMode, v: Session, w: World)
    requires SessionSound(srv, cfg, v, w.history)
    ensures RunSound(srv, cfg, Retry(srv, cfg, registry, mode, v, w), w.history)
  {
    var keys := SelectRetryKeys(v.sources, mode);
    assert SessionSound(srv, cfg, Requeued(v, keys), w.history);
    if keys != {} {
      RunKeepsSound(srv, cfg, SourcesForKeys(registry, keys), Requeued(v, keys), w);
    }
  }

  lemma StoreGrows(srv: Server, cfg: Config, a: seq<Json>, b: seq<Json>, history: seq<Read>)
    requires StoreSound(srv, cfg, a, history) && StoreSound(srv, cfg, b, history)
    ensures StoreSound(srv, cfg, a + b, history)
  {
    forall i | 0 <= i < |a + b|
      ensures CopySound(srv, cfg, (a + b)[i], history)
    {
      assert (a + b)[i] == if i < |a| then a[i] else b[i - |a|];
    }
  }

  lemma StoreSurvives(srv: Server, cfg: Config, stored: seq<Json>, earlier: seq<Read>, later: seq<Read>)
    requires StoreSound(srv, cfg, stored, earlier) && earlier <= later
    ensures StoreSound(srv, cfg, stored, later)
  {
    forall i | 0 <= i < |stored|
      ensures CopySound(srv, cfg, stored[i], later)
    {
      assert CopySound(srv, cfg, stored[i], earlier);
      SoundnessSurvives(srv, cfg, FromSnapshot(stored[i]).value, earlier, later);
    }
  }

  lemma CopyOfSound(srv: Server, cfg: Config, v: Session, history: seq<Read>)
    requires SessionSound(srv, cfg, v, history)
    ensures CopySound(srv, cfg, Snapshot(v), history)
  {
    SnapshotRoundTrip(v);
  }

  /** Snapshots emitted by `history` restore soundly with the reads of `history`, whatever came later. */
  lemma SnapshotsAreSound(srv: Server, cfg: Config, emitted: seq<Emission>, history: seq<Read>)
    requires EmissionsSound(srv, cfg, emitted, history)
    ensures StoreSound(srv, cfg, Snapshots(emitted), history)
  {
    forall i | 0 <= i < |emitted|
      ensures CopySound(srv, cfg, Snapshots(emitted)[i], history)
    {
      SoundnessSurvives(srv, cfg, emitted[i].session, emitted[i].at.history, history);
      CopyOfSound(srv, cfg, emitted[i].session, history);
    }
  }

  lemma FullScanIsSound(srv: Server, cfg: Config, sys: System, queued: Session, registry: seq<Source>)
    requires SystemSound(srv, cfg, sys) && SessionSound(srv, cfg, queued, sys.world.history)
    ensures StoreSound(srv, cfg, sys.stored + [Snapshot(queued)], sys.world.history)
    ensures RunSound(srv, cfg, RunSession(srv, cfg, registry, queued, sys.world), sys.world.history)
  {
    CopyOfSound(srv, cfg, queued, sys.world.history);
    StoreGrows(srv, cfg, sys.stored, [Snapshot(queued)], sys.world.history);
    RunKeepsSound(srv, cfg, registry, queued, sys.world);
  }

  lemma LaunchFromCopy(srv: Server, cfg: Config, sys: System, copy: nat, v: Session, mode: RetryMode,
                       registry: seq<Source>)
    requires copy < |sys.stored| && FromSnapshot(sys.stored[copy]) == Some(v)
    ensures Launch(srv, cfg, sys, RetryStored(copy, mode, registry)) == Relaunch(srv, cfg, sys, mode, registry, v)
  {}

  lemma RelaunchIsSound(srv: Server, cfg: Config, sys: System, v: Session, mode: RetryMode, registry: seq<Source>)
    requires SystemSound(srv, cfg, sys) && SessionSound(srv, cfg, v, sys.world.history)
    requires Relaunch(srv, cfg, sys, mode, registry, v).Some?
    ensures
      var start := Relaunch(srv, cfg, sys, mode, registry, v).value;
      start.stored == sys.stored && StartSound(srv, cfg, sys, start)
  {
    RetryKeepsSound(srv, cfg, registry, mode, v, sys.world);
  }

  lemma CopyIsSession(srv: Server, cfg: Config, copy: Json, v: Session, history: seq<Read>)
    requires CopySound(srv, cfg, copy, history) && FromSnapshot(copy) == Some(v)
    ensures SessionSound(srv, cfg, v, history)
  {}

  ghost predicate StartSound(srv: Server, cfg: Config, sys: System, start: Start) {
    StoreSound(srv, cfg, start.stored, sys.world.history) && RunSound(srv, cfg, start.run, sys.world.history)
  }

  lemma StoredLaunchIsSound(srv: Server, cfg: Config, sys: System, copy: nat, mode: RetryMode, registry: seq<Source>)
    requires SystemSound(srv, cfg, sys) && Launch(srv, cfg, sys, RetryStored(copy, mode, registry)).Some?
    ensures StartSound(srv, cfg, sys, Launch(srv, cfg, sys, RetryStored(copy, mode, registry)).value)
  {
    var v := FromSnapshot(sys.stored[copy]).value;
    LaunchFromCopy(srv, cfg, sys, copy, v, mode, registry);
    CopyIsSession(srv, cfg, sys.stored[copy], v, sys.world.history);
    RelaunchIsSound(srv, cfg, sys, v, mode, registry);
  }

  /** What a request starts from is sound, and so is the run it starts. */
  lemma LaunchIsSound(srv: Server, cfg: Config, sys: System, request: Request)
    requires SystemSound(srv, cfg, sys) && Launch(srv, cfg, sys, request).Some?
    ensures StartSound(srv, cfg, sys, Launch(srv, cfg, sys, request).value)
  {
    match request
    case FullScan(id, code, registry) =>
      var queued := InitFull(srv, code, id, registry, sys.world);
      assert SessionSound(srv, cfg, queued, sys.world.history);
      FullScanIsSound(srv, cfg, sys, queued, registry);
    case RetryLive(mode, registry) => RelaunchIsSound(srv, cfg, sys, sys.live.value, mode, registry);
    case RetryStored(i, mode, registry) => StoredLaunchIsSound(srv, cfg, sys, i, mode, registry);
  }

  /** The store after `emitted`, seen with the reads of `history`. */
  lemma StoringKeepsSound(srv: Server, cfg: Config, stored: seq<Json>, emitted: seq<Emission>,
                          earlier: seq<Read>, history: seq<Read>)
    requires StoreSound(srv, cfg, stored, earlier) && earlier <= history
    requires EmissionsSound(srv, cfg, emitted, history)
    ensures StoreSound(srv, cfg, stored + Snapshots(emitted), history)
  {
    StoreSurvives(srv, cfg, stored, earlier, history);
    SnapshotsAreSound(srv, cfg, emitted, history);
    StoreGrows(srv, cfg, stored, Snapshots(emitted), history);
  }

  /** A worker lost after `kept` snapshots leaves them sound by the reads it had really made. */
  lemma LossKeepsSound(srv: Server, cfg: Config, sys: System, start: Start, kept: nat, at: World)
    requires StoreSound(srv, cfg, start.stored, sys.world.history) && RunSound(srv, cfg, start.run, sys.world.history)
    requires LostAt(sys.world, start.run, kept, at)
    ensures StoreSound(srv, cfg, start.stored + Snapshots(start.run.emitted[..kept]), at.history)
  {
    var emitted := start.run.emitted;
    assert sys.world.history <= at.history;
    forall i | 0 <= i < kept
      ensures emitted[i].at.history <= at.history
    {
      assert emitted[i].at.history <= emitted[kept - 1].at.history;
    }
    StoringKeepsSound(srv, cfg, start.stored, emitted[..kept], sys.world.history, at.history);
  }

  lemma StepKeepsSound(srv: Server, cfg: Config, sys: System, op: Op)
    requires SystemSound(srv, cfg, sys)
    ensures SystemSound(srv, cfg, Step(srv, cfg, sys, op))
  {
    match op
    case Serve(request) =>
      if Launch(srv, cfg, sys, request).Some? {
        var start := Launch(srv, cfg, sys, request).value;
        LaunchIsSound(srv, cfg, sys, request);
        StoringKeepsSound(srv, cfg, start.stored, start.run.emitted, sys.world.history, start.run.world.history);
      }
    case Lose(request, kept, at) =>
      if Launch(srv, cfg, sys, request).Some? {
        var start := Launch(srv, cfg, sys, request).value;
        if LostAt(sys.world, start.run, kept, at) {
          LaunchIsSound(srv, cfg, sys, request);
          LossKeepsSound(srv, cfg, sys, start, kept, at);
        }
      }
    case Restart =>
  }

  /**
    Resume-cursor soundness. After any sequence of full scans, retries, restarts and workers lost
    at any point, in the live session and in every stored snapshot, each record's `next_offset` is
    its page count times the page size, and every row of the table below it was returned by a read
    that had really been made. A snapshot of a run cut short is judged by the reads of that run up
    to the cut.
  */
  lemma {:induction false} CursorsAreAlwaysSound(srv: Server, cfg: Config, start: World, ops: seq<Op>)
    ensures SystemSound(srv, cfg, Reached(srv, cfg, System(None, [], start), ops))
    decreases |ops|
  {
    if ops != [] {
      CursorsAreAlwaysSound(srv, cfg, start, ops[..|ops| - 1]);
      StepKeepsSound(srv, cfg, Reached(srv, cfg, System(None, [], start), ops[..|ops| - 1]), ops[|ops| - 1]);
    }
  }

  /** Every snapshot any request emits is sound by the reads made at its emission. */
  lemma EveryEmissionIsSound(srv: Server, cfg: Config, start: World, ops: seq<Op>, request: Request)
    ensures
      var sys := Reached(srv, cfg, System(None, [], start), ops);
      Launch(srv, cfg, sys, request).Some? ==>
        var run := Launch(srv, cfg, sys, request).value.run;
        EmissionsSound(srv, cfg, run.emitted, run.world.history)
  {
    var sys := Reached(srv, cfg, System(None, [], start), ops);
    CursorsAreAlwaysSound(srv, cfg, start, ops);
    if Launch(srv, cfg, sys, request).Some? {
      LaunchIsSound(srv, cfg, sys, request);
    }
  }

  /** Retrying from the stored copy of a session selects and rescans what retrying the session itself does. */
  lemma RestoredRetryIsTheSame(srv: Server, cfg: Config, sys: System, v: Session, mode: RetryMode,
                               registry: seq<Source>)
    requires sys.live == Some(v) && v.state !in {SPending, SRunning}
    requires sys.stored != [] && sys.stored[|sys.stored| - 1] == Snapshot(v)
    ensures
      var fromLive := Launch(srv, cfg, sys, RetryLive(mode, registry));
      var fromStore := Launch(srv, cfg, sys.(live := None), RetryStored(|sys.stored| - 1, mode, registry));
      fromLive == fromStore
  {
    SnapshotRoundTrip(v);
    LaunchFromCopy(srv, cfg, sys.(live := None), |sys.stored| - 1, v, mode, registry);
  }

  // ---------------------------------------------------------------------------------------------
  // A finished session that stays running
  // ---------------------------------------------------------------------------------------------

  ghost predicate DoneButRunning(v: Session) {
    v.state == SRunning && forall k :: k in v.sources ==> v.sources[k].status in {Completed, Empty, Unmapped}
  }

  lemma {:induction false} StaysRunning(srv: Server, cfg: Config, sources: seq<Source>, r: Run)
    requires r.session.state == SRunning && r.emitted != [] && r.emitted[|r.emitted| - 1].session == r.session
    ensures
      var end := RunSources(srv, cfg, sources, r);
      && end.session.state == SRunning
      && |end.emitted| == |r.emitted| + 2 * |sources| && end.emitted[|end.emitted| - 1].session == end.session
    decreases |sources|
  {
    if sources != [] {
      StaysRunning(srv, cfg, sources[..|sources| - 1], r);
    }
  }

  /** The last snapshot but one of a healthy full scan: every source done, the session still `running`. */
  lemma LastButOne(srv: Server, cfg: Config, d: nat, registry: seq<Source>, v: Session, w: World)
    requires Healthy(srv, cfg, d) && v.sources.Keys == KeysOf(registry)
    ensures
      var emitted := RunSession(srv, cfg, registry, v, w).emitted;
      && |emitted| == 2 * |registry| + 2
      && DoneButRunning(emitted[2 * |registry|].session)
  {
    StaysRunning(srv, cfg, registry, Begun(srv, v, w));
    HealthySources(srv, cfg, d, registry, Begun(srv, v, w));
    var mid := RunSources(srv, cfg, registry, Begun(srv, v, w));
    assert RunSession(srv, cfg, registry, v, w).emitted[2 * |registry|] == mid.emitted[2 * |registry|];
  }

  lemma NothingSelected(v: Session, mode: RetryMode)
    requires DoneButRunning(v)
    ensures SelectRetryKeys(v.sources, mode) == {}
  {}

  lemma LastOfBoth<T>(stored: seq<T>, more: seq<T>)
    requires more != []
    ensures (stored + more)[|stored + more| - 1] == more[|more| - 1]
  {}

  ghost predicate RunningCopy(copy: Json) {
    FromSnapshot(copy).Some? && FromSnapshot(copy).value.state == SRunning
  }

  /** The newest copy restores to a `running` session that a retry of this mode leaves as it is. */
  ghost predicate NewestCopyIsStuck(srv: Server, cfg: Config, sys: System, mode: RetryMode, registry: seq<Source>) {
    && sys.stored != [] && RunningCopy(sys.stored[|sys.stored| - 1])
    && Step(srv, cfg, sys, Serve(RetryStored(|sys.stored| - 1, mode, registry))) == sys
  }

  lemma DoneCopyIsStuck(srv: Server, cfg: Config, sys: System, v: Session, mode: RetryMode, registry: seq<Source>)
    requires sys.stored != [] && FromSnapshot(sys.stored[|sys.stored| - 1]) == Some(v) && DoneButRunning(v)
    ensures NewestCopyIsStuck(srv, cfg, sys, mode, registry)
  {
    NothingSelected(v, mode);
    LaunchFromCopy(srv, cfg, sys, |sys.stored| - 1, v, mode, registry);
  }

  lemma LostSystem(srv: Server, cfg: Config, sys: System, request: Request, kept: nat, at: World)
    requires Launch(srv, cfg, sys, request).Some?
    requires LostAt(sys.world, Launch(srv, cfg, sys, request).value.run, kept, at)
    ensures
      var start := Launch(srv, cfg, sys, request).value;
      Step(srv, cfg, sys, Lose(request, kept, at)) ==
          System(None, start.stored + Snapshots(start.run.emitted[..kept]), at)
  {}

  /** A store that ends with the copy of a done session. */
  lemma LostCopyIsStuck(srv: Server, cfg: Config, lost: System, stored: seq<Json>, emitted: seq<Emission>, v: Session,
                        mode: RetryMode, registry: seq<Source>)
    requires lost.stored == stored + Snapshots(emitted)
    requires emitted != [] && emitted[|emitted| - 1].session == v && DoneButRunning(v)
    ensures NewestCopyIsStuck(srv, cfg, lost, mode, registry)
  {
    LastOfBoth(stored, Snapshots(emitted));
    SnapshotRoundTrip(v);
    DoneCopyIsStuck(srv, cfg, lost, v, mode, registry);
  }

  lemma HealthyFullScan(srv: Server, cfg: Config, d: nat, sys: System, id: string, code: string, registry: seq<Source>)
    requires Healthy(srv, cfg, d)
    ensures Launch(srv, cfg, sys, FullScan(id, code, registry)).Some?
    ensures
      var emitted := Launch(srv, cfg, sys, FullScan(id, code, registry)).value.run.emitted;
      && |emitted| == 2 * |registry| + 2
      && DoneButRunning(emitted[2 * |registry|].session)
  {
    LastButOne(srv, cfg, d, registry, InitFull(srv, code, id, registry, sys.world), sys.world);
  }

  /**
    A worker lost just before the final snapshot of a healthy full scan leaves as its newest copy a
    session that is `running`, has nothing left to do, and is moved by no retry of any mode.
  */
  lemma LostBeforeTheEndIsStuck(srv: Server, cfg: Config, d: nat, sys: System, id: string, code: string,
                                registry: seq<Source>, at: World, mode: RetryMode)
    requires Healthy(srv, cfg, d)
    requires LostAt(sys.world, Launch(srv, cfg, sys, FullScan(id, code, registry)).value.run, 2 * |registry| + 1, at)
    ensures NewestCopyIsStuck(srv, cfg, Step(srv, cfg, sys, Lose(FullScan(id, code, registry), 2 * |registry| + 1, at)),
                              mode, registry)
  {
    HealthyFullScan(srv, cfg, d, sys, id, code, registry);
    LostSystem(srv, cfg, sys, FullScan(id, code, registry), 2 * |registry| + 1, at);
    var start := Launch(srv, cfg, sys, FullScan(id, code, registry)).value;
    var lost := Step(srv, cfg, sys, Lose(FullScan(id, code, registry), 2 * |registry| + 1, at));
    var emitted := start.run.emitted;
    LostCopyIsStuck(srv, cfg, lost, start.stored, emitted[..2 * |registry| + 1], emitted[2 * |registry|].session, mode,
                    registry);
  }
}
