/** What a whole scan session promises: progress, isolation, time, end state, retry convergence. */
module ScanSessionLaws {
  import opened Wrappers
  import opened OdooScan
  import opened OdooScanLaws
  import opened ScanSession

  // ---------------------------------------------------------------------------------------------
  // Time
  // ---------------------------------------------------------------------------------------------

  /** The time `n` progress saves take, from the `first` one on. */
  function SaveTime(srv: Server, first: nat, n: nat): nat {
    if n == 0 then 0 else SaveTime(srv, first, n - 1) + srv.saveDelays(first + n - 1)
  }

  lemma {:induction false} PagesSaveNothing(srv: Server, cfg: Config, key: string, target: int, deadline: nat,
                                            c: Cursor, w: World)
    ensures Pages(srv, cfg, key, target, deadline, c, w).world.saves == w.saves
    decreases cfg.maxPages - c.pages
  {
    if c.seen < target && c.pages < cfg.maxPages && w.clock < deadline {
      var call := ReadCall(srv, cfg, key, c.offset, w);
      if call.result.Done? && |call.result.value| >= cfg.pageSize {
        PagesSaveNothing(srv, cfg, key, target, deadline,
                         Cursor(c.seen + |call.result.value|, c.offset + cfg.pageSize, c.pages + 1), call.world);
      }
    }
  }

  lemma ScanSavesNothing(srv: Server, cfg: Config, key: string, mapped: bool, prior: Option<SourceScanState>, w: World)
    ensures Scan(srv, cfg, key, mapped, prior, w).world.saves == w.saves
  {
    var count := CountCall(srv, cfg.batchTimeout, w);
    if mapped && count.result.Done? && count.result.value.Some? && count.result.value.value != 0 {
      PagesSaveNothing(srv, cfg, key, Target(cfg, count.result.value.value), w.clock + cfg.sourceTimeout,
                       Cursor(0, PriorOffset(prior), 0), count.world);
    }
  }

  /** A run of `n` sources from `w` to `end`: two saves a source, and no more time than scans and saves take. */
  ghost predicate EndsInTime(srv: Server, cfg: Config, n: nat, saves: nat, w: World, end: World) {
    && end.saves == w.saves + saves
    && w.clock + SaveTime(srv, w.saves, saves) <= end.clock
    && end.clock <= w.clock + n * cfg.SourceBound() + SaveTime(srv, w.saves, saves)
  }

  lemma SourceEndsInTime(srv: Server, cfg: Config, source: Source, n: nat, saves: nat, w: World, r: Run)
    requires EndsInTime(srv, cfg, n, saves, w, r.world)
    ensures EndsInTime(srv, cfg, n + 1, saves + 2, w, RunSource(srv, cfg, source, r).world)
  {
    var prior := Lookup(r.session.sources, source.key);
    var saved := Saved(srv, r.world);
    ScanEndsInTime(srv, cfg, source.key, source.mapped, prior, saved);
    ScanSavesNothing(srv, cfg, source.key, source.mapped, prior, saved);
    assert (n + 1) * cfg.SourceBound() == n * cfg.SourceBound() + cfg.SourceBound();
  }

  lemma {:induction false} SourcesEndInTime(srv: Server, cfg: Config, sources: seq<Source>, w: World, r: Run)
    requires EndsInTime(srv, cfg, 0, 1, w, r.world)
    ensures EndsInTime(srv, cfg, |sources|, 2 * |sources| + 1, w, RunSources(srv, cfg, sources, r).world)
    decreases |sources|
  {
    if sources != [] {
      var n := |sources| - 1;
      SourcesEndInTime(srv, cfg, sources[..n], w, r);
      SourceEndsInTime(srv, cfg, sources[n], n, 2 * n + 1, w, RunSources(srv, cfg, sources[..n], r));
    }
  }

  /**
    No session outlasts the number of sources times the bound of one, plus the time its 2n+2
    progress saves take, whatever the server does.
  */
  lemma SessionEndsInTime(srv: Server, cfg: Config, sources: seq<Source>, v: Session, w: World)
    ensures
      var end := RunSession(srv, cfg, sources, v, w).world.clock;
      var saving := SaveTime(srv, w.saves, 2 * |sources| + 2);
      w.clock + saving <= end <= w.clock + |sources| * cfg.SourceBound() + saving
  {
    assert SaveTime(srv, w.saves, 1) == SaveTime(srv, w.saves, 0) + srv.saveDelays(w.saves);
    SourcesEndInTime(srv, cfg, sources, w, Begun(srv, v, w));
    LastSave(srv, cfg, |sources|, 2 * |sources| + 1, w, RunSources(srv, cfg, sources, Begun(srv, v, w)).world);
  }

  lemma LastSave(srv: Server, cfg: Config, n: nat, saves: nat, w: World, end: World)
    requires EndsInTime(srv, cfg, n, saves, w, end)
    ensures EndsInTime(srv, cfg, n, saves + 1, w, Saved(srv, end))
  {}

  // ---------------------------------------------------------------------------------------------
  // Progress of one run
  // ---------------------------------------------------------------------------------------------

  /** A scan always returns a settled record for its own key. */
  lemma ScanSettles(srv: Server, cfg: Config, key: string, mapped: bool, prior: Option<SourceScanState>, w: World)
    ensures
      var st := Scan(srv, cfg, key, mapped, prior, w).state;
      st.key == key && Settled(st.status) && st.status != NotScanned
  {}

  ghost function KeysOf(sources: seq<Source>): set<string> {
    set s | s in sources :: s.key
  }

  ghost predicate DistinctKeys(sources: seq<Source>) {
    forall i, j :: 0 <= i < j < |sources| ==> sources[i].key != sources[j].key
  }

  function RunningCount(sources: map<string, SourceScanState>): nat {
    CountWith(sources, Running)
  }

  /** The start of a run: the sources to scan wait, every other one is settled. */
  ghost predicate ReadyFor(sources: map<string, SourceScanState>, toScan: set<string>) {
    forall k :: k in sources ==> if k in toScan then sources[k].status == Pending else Settled(sources[k].status)
  }

  /** Everything outside `toScan` is as it was. */
  ghost predicate Untouched(before: map<string, SourceScanState>, after: map<string, SourceScanState>,
                            toScan: set<string>)
  {
    forall k :: k !in toScan ==> Lookup(before, k) == Lookup(after, k)
  }

  ghost predicate GoodTrace(trace: seq<Emission>, start: map<string, SourceScanState>, toScan: set<string>) {
    && (forall i :: 0 <= i < |trace| ==> RunningCount(trace[i].session.sources) <= 1)
    && (forall i :: 0 <= i < |trace| ==> Untouched(start, trace[i].session.sources, toScan))
    && (forall i :: 0 <= i < |trace| - 1 ==>
        DoneCount(trace[i].session.sources) <= DoneCount(trace[i + 1].session.sources))
  }

  lemma NoneRunning(sources: map<string, SourceScanState>)
    requires forall k :: k in sources ==> sources[k].status != Running
    ensures RunningCount(sources) == 0
  {
    assert (set k | k in sources && sources[k].status == Running) == {};
  }

  lemma OneRunning(sources: map<string, SourceScanState>, key: string, st: SourceScanState)
    requires forall k :: k in sources && k != key ==> sources[k].status != Running
    requires st.status == Running
    ensures RunningCount(sources[key := st]) == 1
  {
    var marked := sources[key := st];
    assert (set k | k in marked && marked[k].status == Running) == {key};
  }

  /** Marking a waiting source changes no other; settling it moves exactly one source to done. */
  lemma DoneSteps(sources: map<string, SourceScanState>, key: string, running: SourceScanState, result: SourceScanState)
    requires key in sources ==> !Settled(sources[key].status)
    requires !Settled(running.status) && Settled(result.status)
    ensures DoneCount(sources[key := running]) == DoneCount(sources)
    ensures DoneCount(sources[key := running][key := result]) == DoneCount(sources) + 1
  {
    var before := set k | k in sources && Settled(sources[k].status);
    var marked := sources[key := running];
    var stored := marked[key := result];
    assert (set k | k in marked && Settled(marked[k].status)) == before;
    assert (set k | k in stored && Settled(stored[k].status)) == before + {key};
  }

  /** The loop invariant of a run: `done` of the waiting sources, `n` in number, have been scanned. */
  ghost predicate Progressed(r: Run, start: map<string, SourceScanState>, done: set<string>, n: nat,
                             waiting: set<string>)
  {
    && |r.emitted| == 2 * n + 1
    && r.emitted[|r.emitted| - 1].session.sources == r.session.sources
    && GoodTrace(r.emitted, start, waiting)
    && Standing(r.session.sources, start, done, n, waiting)
  }

  /** Where the sources of a session stand once `done` of the waiting ones, `n` in number, have been scanned. */
  ghost predicate Standing(sources: map<string, SourceScanState>, start: map<string, SourceScanState>,
                           done: set<string>, n: nat, waiting: set<string>)
  {
    && ReadyFor(sources, waiting - done)
    && DoneCount(sources) == DoneCount(start) + n
    && sources.Keys == start.Keys + done
  }

  lemma TraceStep(key: string, start: map<string, SourceScanState>, narrow: set<string>, waiting: set<string>,
                  r: Run, next: Run)
    requires GoodTrace(r.emitted, start, waiting) && r.emitted != []
    requires r.emitted[|r.emitted| - 1].session.sources == r.session.sources
    requires SourceStep(key, narrow, r, next) && narrow <= waiting
    ensures GoodTrace(next.emitted, start, waiting)
  {
    ExtendTrace(r.emitted, next.emitted, start, r.session.sources, waiting);
  }

  lemma ProgressStep(key: string, start: map<string, SourceScanState>, done: set<string>, n: nat, waiting: set<string>,
                     r: Run, next: Run)
    requires Progressed(r, start, done, n, waiting)
    requires key in waiting && key !in done
    requires SourceStep(key, waiting - done, r, next)
    ensures Progressed(next, start, done + {key}, n + 1, waiting)
  {
    TraceStep(key, start, waiting - done, waiting, r, next);
    StandingStep(key, start, done, n, waiting, r.session.sources, next.session.sources);
  }

  lemma StandingStep(key: string, start: map<string, SourceScanState>, done: set<string>, n: nat, waiting: set<string>,
                     sources: map<string, SourceScanState>, next: map<string, SourceScanState>)
    requires Standing(sources, start, done, n, waiting)
    requires ReadyFor(next, waiting - done - {key}) && DoneCount(next) == DoneCount(sources) + 1
    requires next.Keys == sources.Keys + {key}
    ensures Standing(next, start, done + {key}, n + 1, waiting)
  {
    WaitingStep(key, start.Keys, done, waiting, next);
  }

  lemma WaitingStep(key: string, keys: set<string>, done: set<string>, waiting: set<string>,
                    sources: map<string, SourceScanState>)
    requires sources.Keys == keys + done + {key}
    ensures sources.Keys == keys + (done + {key}) && waiting - done - {key} == waiting - (done + {key})
  {}

  lemma {:induction false} SourcesProgress(srv: Server, cfg: Config, sources: seq<Source>, waiting: set<string>, r: Run)
    requires DistinctKeys(sources) && KeysOf(sources) <= waiting
    requires Progressed(r, r.session.sources, {}, 0, waiting)
    ensures Progressed(RunSources(srv, cfg, sources, r), r.session.sources, KeysOf(sources), |sources|, waiting)
    decreases |sources|
  {
    if sources != [] {
      var n := |sources| - 1;
      KeysOfSnoc(sources);
      SourcesProgress(srv, cfg, sources[..n], waiting, r);
      var before := RunSources(srv, cfg, sources[..n], r);
      SourceProgress(srv, cfg, sources[n], waiting - KeysOf(sources[..n]), before);
      ProgressStep(sources[n].key, r.session.sources, KeysOf(sources[..n]), n, waiting, before,
                   RunSource(srv, cfg, sources[n], before));
    } else {
      assert KeysOf(sources) == {};
    }
  }

  lemma KeysOfSnoc(sources: seq<Source>)
    requires sources != []
    ensures
      var n := |sources| - 1;
      KeysOf(sources) == KeysOf(sources[..n]) + {sources[n].key}
    ensures DistinctKeys(sources) ==> sources[|sources| - 1].key !in KeysOf(sources[..|sources| - 1])
  {
    assert sources == sources[..|sources| - 1] + [sources[|sources| - 1]];
  }

  /** What scanning one waiting source does: two snapshots, one running source, one more done. */
  ghost predicate SourceStep(key: string, waiting: set<string>, r: Run, next: Run) {
    && |next.emitted| == |r.emitted| + 2
    && r.emitted <= next.emitted
    && var m, s := next.emitted[|r.emitted|].session.sources, next.emitted[|r.emitted| + 1].session.sources;
    && s == next.session.sources
    && RunningCount(m) == 1 && RunningCount(s) == 0
    && Untouched(r.session.sources, m, waiting) && Untouched(r.session.sources, s, waiting)
    && DoneCount(m) == DoneCount(r.session.sources)
    && DoneCount(s) == DoneCount(r.session.sources) + 1
    && ReadyFor(s, waiting - {key})
    && s.Keys == r.session.sources.Keys + {key}
  }

  lemma SourceProgress(srv: Server, cfg: Config, source: Source, waiting: set<string>, r: Run)
    requires source.key in waiting && ReadyFor(r.session.sources, waiting)
    ensures SourceStep(source.key, waiting, r, RunSource(srv, cfg, source, r))
  {
    var key := source.key;
    var prior := Lookup(r.session.sources, key);
    var running := RunningRecord(key, prior);
    var result := Scan(srv, cfg, key, source.mapped, prior, Saved(srv, r.world)).state;
    ScanSettles(srv, cfg, key, source.mapped, prior, Saved(srv, r.world));
    OneRunning(r.session.sources, key, running);
    DoneSteps(r.session.sources, key, running, result);
    NoneRunning(r.session.sources[key := running][key := result]);
  }

  lemma ExtendTrace(before: seq<Emission>, after: seq<Emission>, start: map<string, SourceScanState>,
                    last: map<string, SourceScanState>, waiting: set<string>)
    requires GoodTrace(before, start, waiting) && before != [] && before[|before| - 1].session.sources == last
    requires |after| == |before| + 2 && before <= after
    requires
      var m, s := after[|before|].session.sources, after[|before| + 1].session.sources;
      && RunningCount(m) <= 1 && RunningCount(s) <= 1
      && Untouched(last, m, waiting) && Untouched(last, s, waiting)
      && DoneCount(last) <= DoneCount(m) <= DoneCount(s)
    ensures GoodTrace(after, start, waiting)
  {
    var n := |before|;
    assert Untouched(start, before[n - 1].session.sources, waiting);
    forall i | 0 <= i < |after|
      ensures RunningCount(after[i].session.sources) <= 1 && Untouched(start, after[i].session.sources, waiting)
    {
      if i < n { assert after[i] == before[i]; }
    }
    forall i | 0 <= i < |after| - 1
      ensures DoneCount(after[i].session.sources) <= DoneCount(after[i + 1].session.sources)
    {
      if i < n - 1 {
        assert after[i] == before[i] && after[i + 1] == before[i + 1];
      } else if i == n - 1 {
        assert after[i] == before[i];
      }
    }
  }

  lemma EndState(end: map<string, SourceScanState>)
    requires ReadyFor(end, {})
    ensures DoneCount(end) == |end|
    ensures OverallState(end) != SRunning && OverallState(end) != SPending
    ensures OverallState(end) == SCompleted <==> forall k :: k in end ==> end[k].status in {Completed, Empty, Unmapped}
    ensures OverallState(end) == SFailed <==>
              && (forall k :: k in end ==> end[k].status in {Failed, Timeout, Unmapped})
              && (exists k :: k in end && end[k].status in {Failed, Timeout})
  {
    assert (set k | k in end && Settled(end[k].status)) == end.Keys;
    assert |end.Keys| == |end|;
  }

  /**
    One run. If the selected sources wait and all others are settled, then exactly 2n+2 snapshots
    are emitted, each with at most one running source; `done` never decreases and rises by n; no
    unselected source is touched; and in the end everything is settled, with the final state
    decided by the mapped statuses alone.
  */
  lemma SessionRun(srv: Server, cfg: Config, sources: seq<Source>, v: Session, w: World)
    requires DistinctKeys(sources) && ReadyFor(v.sources, KeysOf(sources))
    ensures
      var r := RunSession(srv, cfg, sources, v, w);
      var end := r.session.sources;
      && |r.emitted| == 2 * |sources| + 2 && r.emitted[2 * |sources| + 1].session == r.session
      && GoodTrace(r.emitted, v.sources, KeysOf(sources))
      && DoneCount(end) == DoneCount(v.sources) + |sources| == |end|
      && r.session.state != SRunning && r.session.state != SPending
      && (r.session.state == SCompleted <==> forall k :: k in end ==> end[k].status in {Completed, Empty, Unmapped})
      && (r.session.state == SFailed <==>
            && (forall k :: k in end ==> end[k].status in {Failed, Timeout, Unmapped})
            && (exists k :: k in end && end[k].status in {Failed, Timeout}))
  {
    var keys := KeysOf(sources);
    StartProgress(srv, v, w, keys);
    SourcesProgress(srv, cfg, sources, keys, Begun(srv, v, w));
    var mid := RunSources(srv, cfg, sources, Begun(srv, v, w));
    assert keys - keys == {};
    EndState(mid.session.sources);
    FinishTrace(mid.emitted, RunSession(srv, cfg, sources, v, w).emitted, v.sources, keys);
  }

  lemma StartProgress(srv: Server, v: Session, w: World, waiting: set<string>)
    requires ReadyFor(v.sources, waiting)
    ensures Progressed(Begun(srv, v, w), v.sources, {}, 0, waiting)
  {
    NoneRunning(v.sources);
    assert waiting - {} == waiting;
  }

  lemma FinishTrace(before: seq<Emission>, after: seq<Emission>, start: map<string, SourceScanState>,
                    waiting: set<string>)
    requires GoodTrace(before, start, waiting) && before != []
    requires |after| == |before| + 1 && after[..|before|] == before
    requires after[|before|].session.sources == before[|before| - 1].session.sources
    ensures GoodTrace(after, start, waiting)
  {
    var n := |before|;
    forall i | 0 <= i < |after|
      ensures RunningCount(after[i].session.sources) <= 1 && Untouched(start, after[i].session.sources, waiting)
    {
      assert after[i].session.sources == before[if i < n then i else n - 1].session.sources;
    }
    forall i | 0 <= i < |after| - 1
      ensures DoneCount(after[i].session.sources) <= DoneCount(after[i + 1].session.sources)
    {
      assert after[i] == before[i];
      if i < n - 1 { assert after[i + 1] == before[i + 1]; }
    }
  }

  // ---------------------------------------------------------------------------------------------
  // Retry convergence
  // ---------------------------------------------------------------------------------------------

  lemma KeysOfCons(source: Source, rest: seq<Source>)
    ensures KeysOf([source] + rest) == {source.key} + KeysOf(rest)
    ensures DistinctKeys([source] + rest) <==> DistinctKeys(rest) && source.key !in KeysOf(rest)
  {
    var all := [source] + rest;
    assert forall s :: s in all <==> s == source || s in rest;
    if DistinctKeys(all) {
      forall i, j | 0 <= i < j < |rest|
        ensures rest[i].key != rest[j].key
      {
        assert all[i + 1] == rest[i] && all[j + 1] == rest[j];
      }
      forall s | s in rest
        ensures s.key != source.key
      {
        var i :| 0 <= i < |rest| && rest[i] == s;
        assert all[i + 1] == s && all[0] == source;
      }
    }
  }

  lemma {:induction false} SelectedSources(registry: seq<Source>, keys: set<string>)
    requires DistinctKeys(registry)
    ensures DistinctKeys(SourcesForKeys(registry, keys))
    ensures KeysOf(SourcesForKeys(registry, keys)) == KeysOf(registry) * keys
  {
    if registry != [] {
      var rest := SourcesForKeys(registry[1..], keys);
      assert registry == [registry[0]] + registry[1..];
      KeysOfCons(registry[0], registry[1..]);
      SelectedSources(registry[1..], keys);
      if registry[0].key in keys {
        KeysOfCons(registry[0], rest);
      } else {
        assert [] + rest == rest;
      }
    }
  }

  /** Against a healthy backend each scanned source ends completed, empty or unmapped. */
  lemma {:induction false} HealthySources(srv: Server, cfg: Config, d: nat, sources: seq<Source>, r: Run)
    requires Healthy(srv, cfg, d)
    ensures
      var end := RunSources(srv, cfg, sources, r).session.sources;
      && end.Keys == r.session.sources.Keys + KeysOf(sources)
      && (forall k :: k in KeysOf(sources) ==> end[k].status in {Completed, Empty, Unmapped})
      && (forall k :: k in end && k !in KeysOf(sources) ==> end[k] == r.session.sources[k])
    decreases |sources|
  {
    if sources != [] {
      var n := |sources| - 1;
      HealthySources(srv, cfg, d, sources[..n], r);
      var before := RunSources(srv, cfg, sources[..n], r);
      HealthyScanCompletes(srv, cfg, d, sources[n].key, sources[n].mapped,
                           Lookup(before.session.sources, sources[n].key), Saved(srv, before.world));
      assert KeysOf(sources) == KeysOf(sources[..n]) + {sources[n].key};
    }
  }

  lemma HealthyRetryEnd(srv: Server, cfg: Config, d: nat, registry: seq<Source>, v: Session, w: World)
    requires Healthy(srv, cfg, d) && DistinctKeys(registry)
    requires SelectRetryKeys(v.sources, RetryIncomplete) != {}
    ensures
      var keys := SelectRetryKeys(v.sources, RetryIncomplete);
      var end := Retry(srv, cfg, registry, RetryIncomplete, v, w).session.sources;
      && end.Keys == v.sources.Keys
      && (forall k :: k in end ==>
            if k in keys then
              if k in KeysOf(registry) then end[k].status in {Completed, Empty, Unmapped} else end[k].status == Pending
            else end[k] == v.sources[k])
  {
    var keys := SelectRetryKeys(v.sources, RetryIncomplete);
    var picked := SourcesForKeys(registry, keys);
    SelectedSources(registry, keys);
    HealthySources(srv, cfg, d, picked, Begun(srv, Requeued(v, keys), w));
    assert v.sources.Keys + KeysOf(picked) == v.sources.Keys;
  }

  lemma CompletedAfter(before: map<string, SourceScanState>, end: map<string, SourceScanState>,
                       keys: set<string>, known: set<string>)
    requires keys == SelectRetryKeys(before, RetryIncomplete)
    requires end.Keys == before.Keys
    requires forall k :: k in end ==>
      if k in keys then
        if k in known then end[k].status in {Completed, Empty, Unmapped} else end[k].status == Pending
      else end[k] == before[k]
    ensures OverallState(end) == SCompleted <==>
      keys <= known && forall k :: k in before ==> before[k].status != NotScanned
  {
    forall k | k in end
      ensures end[k].status in {Unmapped, Completed, Empty} <==>
                if k in keys then k in known else before[k].status != NotScanned
    {
      if k !in keys { assert !Selected(RetryIncomplete, before[k].status); }
    }
    forall k | k in end && k !in keys
      ensures Settled(end[k].status)
    {
      assert !Selected(RetryIncomplete, before[k].status);
    }
    if keys <= known {
      assert forall k :: k in end ==> Settled(end[k].status);
      if k :| k in before && before[k].status == NotScanned {
        assert k !in keys;
      }
    } else {
      var k :| k in keys && k !in known;
      assert k in end && !Settled(end[k].status);
    }
  }

  /**
    Retry convergence, exactly. One "incomplete" retry against a healthy counting backend ends in
    `completed` if and only if it had something to select, the registry still knows every selected
    source, and no record is `not_scanned`; or it selected nothing and the session was already
    `completed`. Selecting nothing leaves the session's state as it was: a session restored from a
    snapshot taken between the last source and the final one stays `running`.
  */
  lemma RetryConverges(srv: Server, cfg: Config, d: nat, registry: seq<Source>, v: Session, w: World)
    requires Healthy(srv, cfg, d) && DistinctKeys(registry)
    ensures
      var keys := SelectRetryKeys(v.sources, RetryIncomplete);
      Retry(srv, cfg, registry, RetryIncomplete, v, w).session.state == SCompleted <==>
        if keys == {} then v.state == SCompleted
        else keys <= KeysOf(registry) && forall k :: k in v.sources ==> v.sources[k].status != NotScanned
  {
    var keys := SelectRetryKeys(v.sources, RetryIncomplete);
    if keys != {} {
      HealthyRetryEnd(srv, cfg, d, registry, v, w);
      var end := Retry(srv, cfg, registry, RetryIncomplete, v, w).session;
      CompletedAfter(v.sources, end.sources, keys, KeysOf(registry));
      assert end.state == OverallState(end.sources);
    }
  }

  /** The stuck session: every source done, state `running`, and no retry of any mode moves it. */
  lemma FinishedButRunningIsStuck(srv: Server, cfg: Config, registry: seq<Source>, mode: RetryMode, v: Session,
                                  w: World)
    requires v.state == SRunning
    requires forall k :: k in v.sources ==> v.sources[k].status in {Completed, Empty, Unmapped}
    ensures Retry(srv, cfg, registry, mode, v, w) == Run(v, w, [])
  {
    assert SelectRetryKeys(v.sources, mode) == {};
  }
}
