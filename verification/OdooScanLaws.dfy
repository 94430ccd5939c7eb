/** What the scan of one source promises, whatever the server does. */
module OdooScanLaws {
  import opened Wrappers
  import opened OdooScan

  // ---------------------------------------------------------------------------------------------
  // The paging loop issues contiguous pages
  // ---------------------------------------------------------------------------------------------

  /** `n` successful reads of consecutive pages, the first at `offset`. */
  ghost function ReadsFrom(srv: Server, cfg: Config, key: string, offset: nat, n: nat): (r: seq<Read>)
    ensures |r| == n
    decreases n
  {
    if n == 0 then [] else
    [Read(key, offset, cfg.pageSize, Done(PageOf(srv.tables(key), offset, cfg.pageSize)))]
    + ReadsFrom(srv, cfg, key, offset + cfg.pageSize, n - 1)
  }

  /** `later` extends `earlier` by `n` contiguous successful reads and at most one that brought nothing. */
  ghost predicate Extends(srv: Server, cfg: Config, key: string, offset: nat, n: nat, failed: bool,
                          earlier: seq<Read>, later: seq<Read>)
  {
    if failed then
      && later != [] && !later[|later| - 1].outcome.Done?
      && later[..|later| - 1] == earlier + ReadsFrom(srv, cfg, key, offset, n)
    else
      later == earlier + ReadsFrom(srv, cfg, key, offset, n)
  }

  /** The rows of `n` full pages, added up page by page. */
  function Span(pageSize: nat, n: nat): nat {
    if n == 0 then 0 else pageSize + Span(pageSize, n - 1)
  }

  lemma OneMore(a: nat, n: nat)
    requires n > 0
    ensures a + a * (n - 1) == a * n
  {}

  lemma {:induction false} SpanIsProduct(pageSize: nat, n: nat)
    ensures Span(pageSize, n) == pageSize * n
  {
    if n > 0 {
      SpanIsProduct(pageSize, n - 1);
      OneMore(pageSize, n);
    }
  }

  lemma {:induction false} PagesMoveBySpan(srv: Server, cfg: Config, key: string, target: int, deadline: nat,
                                           c: Cursor, w: World)
    ensures
      var run := Pages(srv, cfg, key, target, deadline, c, w);
      && run.cursor.pages >= c.pages
      && run.cursor.offset == c.offset + Span(cfg.pageSize, run.cursor.pages - c.pages)
    decreases cfg.maxPages - c.pages
  {
    if c.seen < target && c.pages < cfg.maxPages && w.clock < deadline {
      var call := ReadCall(srv, cfg, key, c.offset, w);
      if call.result.Done? && |call.result.value| >= cfg.pageSize {
        var next := Cursor(c.seen + |call.result.value|, c.offset + cfg.pageSize, c.pages + 1);
        PagesMoveBySpan(srv, cfg, key, target, deadline, next, call.world);
      }
    }
  }

  lemma PagesMoveCursor(srv: Server, cfg: Config, key: string, target: int, deadline: nat, c: Cursor, w: World)
    ensures
      var run := Pages(srv, cfg, key, target, deadline, c, w);
      && run.cursor.pages >= c.pages
      && run.cursor.offset == c.offset + cfg.pageSize * (run.cursor.pages - c.pages)
  {
    PagesMoveBySpan(srv, cfg, key, target, deadline, c, w);
    SpanIsProduct(cfg.pageSize, Pages(srv, cfg, key, target, deadline, c, w).cursor.pages - c.pages);
  }

  lemma ReadThenReads(srv: Server, cfg: Config, key: string, offset: nat, n: nat, failed: bool,
                      earlier: seq<Read>, later: seq<Read>)
    requires n >= 1
    requires Extends(srv, cfg, key, offset + cfg.pageSize, n - 1, failed,
                     earlier + ReadsFrom(srv, cfg, key, offset, 1), later)
    ensures Extends(srv, cfg, key, offset, n, failed, earlier, later)
  {
    var first := ReadsFrom(srv, cfg, key, offset, 1);
    var rest := ReadsFrom(srv, cfg, key, offset + cfg.pageSize, n - 1);
    assert first == [Read(key, offset, cfg.pageSize, Done(PageOf(srv.tables(key), offset, cfg.pageSize)))];
    assert (earlier + first) + rest == earlier + ReadsFrom(srv, cfg, key, offset, n);
  }

  lemma OneReadExtends(srv: Server, cfg: Config, key: string, offset: nat, w: World)
    ensures
      var call := ReadCall(srv, cfg, key, offset, w);
      && (call.result.Done? ==> call.world.history == w.history + ReadsFrom(srv, cfg, key, offset, 1))
      && Extends(srv, cfg, key, offset, if call.result.Done? then 1 else 0, !call.result.Done?,
                 w.history, call.world.history)
  {
    assert ReadsFrom(srv, cfg, key, offset + cfg.pageSize, 0) == [];
    assert ReadsFrom(srv, cfg, key, offset, 0) == [];
  }

  lemma {:induction false} PagesAreContiguous(srv: Server, cfg: Config, key: string, target: int, deadline: nat,
                                              c: Cursor, w: World)
    ensures
      var run := Pages(srv, cfg, key, target, deadline, c, w);
      && run.cursor.pages >= c.pages
      && Extends(srv, cfg, key, c.offset, run.cursor.pages - c.pages,
                 run.stop.ReadTimedOut? || run.stop.ReadRaised?, w.history, run.world.history)
    decreases cfg.maxPages - c.pages
  {
    if c.seen < target && c.pages < cfg.maxPages && w.clock < deadline {
      var call := ReadCall(srv, cfg, key, c.offset, w);
      OneReadExtends(srv, cfg, key, c.offset, w);
      if call.result.Done? && |call.result.value| >= cfg.pageSize {
        var next := Cursor(c.seen + |call.result.value|, c.offset + cfg.pageSize, c.pages + 1);
        PagesAreContiguous(srv, cfg, key, target, deadline, next, call.world);
        var run := Pages(srv, cfg, key, target, deadline, c, w);
        ReadThenReads(srv, cfg, key, c.offset, run.cursor.pages - c.pages,
                      run.stop.ReadTimedOut? || run.stop.ReadRaised?, w.history, run.world.history);
      }
    }
  }

  // ---------------------------------------------------------------------------------------------
  // Resume-cursor soundness of one scan
  // ---------------------------------------------------------------------------------------------

  ghost predicate ReturnedBy(read: Read, key: string, i: nat, row: Row) {
    && read.key == key && read.outcome.Done?
    && read.offset <= i < read.offset + |read.outcome.value|
    && read.outcome.value[i - read.offset] == row
  }

  /** Row `i` of the source was really returned by a read in `history`. */
  ghost predicate Returned(srv: Server, history: seq<Read>, key: string, i: nat) {
    i < |srv.tables(key)| && exists n :: 0 <= n < |history| && ReturnedBy(history[n], key, i, srv.tables(key)[i])
  }

  /** Every row below `bound` that the table has was returned. */
  ghost predicate CoveredBelow(srv: Server, history: seq<Read>, key: string, bound: nat) {
    forall i: nat :: i < bound && i < |srv.tables(key)| ==> Returned(srv, history, key, i)
  }

  /** The resume cursor of a record is backed by the reads made so far. */
  ghost predicate CursorSound(srv: Server, cfg: Config, st: SourceScanState, history: seq<Read>) {
    && st.nextOffset == cfg.pageSize * st.pagesDone
    && CoveredBelow(srv, history, st.key, st.nextOffset)
  }

  lemma CoverageSurvives(srv: Server, key: string, bound: nat, earlier: seq<Read>, later: seq<Read>)
    requires earlier <= later
    requires CoveredBelow(srv, earlier, key, bound)
    ensures CoveredBelow(srv, later, key, bound)
  {
    forall i: nat | i < bound && i < |srv.tables(key)|
      ensures Returned(srv, later, key, i)
    {
      assert Returned(srv, earlier, key, i);
      var n :| 0 <= n < |earlier| && ReturnedBy(earlier[n], key, i, srv.tables(key)[i]);
      assert later[n] == earlier[n];
    }
  }

  lemma OneReadCovers(srv: Server, cfg: Config, key: string, offset: nat, history: seq<Read>)
    requires CoveredBelow(srv, history, key, offset)
    ensures CoveredBelow(srv, history + ReadsFrom(srv, cfg, key, offset, 1), key, offset + cfg.pageSize)
  {
    var table := srv.tables(key);
    var extended := history + ReadsFrom(srv, cfg, key, offset, 1);
    CoverageSurvives(srv, key, offset, history, extended);
    forall i: nat | i < offset + cfg.pageSize && i < |table|
      ensures Returned(srv, extended, key, i)
    {
      if i >= offset {
        assert ReturnedBy(extended[|history|], key, i, table[i]);
      }
    }
  }

  lemma {:induction false} ReadsCover(srv: Server, cfg: Config, key: string, offset: nat, n: nat, history: seq<Read>)
    requires CoveredBelow(srv, history, key, offset)
    ensures CoveredBelow(srv, history + ReadsFrom(srv, cfg, key, offset, n), key, offset + Span(cfg.pageSize, n))
    decreases n
  {
    if n == 0 {
      assert history + ReadsFrom(srv, cfg, key, offset, 0) == history;
    } else {
      var first := ReadsFrom(srv, cfg, key, offset, 1);
      var rest := ReadsFrom(srv, cfg, key, offset + cfg.pageSize, n - 1);
      OneReadCovers(srv, cfg, key, offset, history);
      ReadsCover(srv, cfg, key, offset + cfg.pageSize, n - 1, history + first);
      assert (history + first) + rest == history + ReadsFrom(srv, cfg, key, offset, n);
    }
  }

  lemma ContiguousReadsCover(srv: Server, cfg: Config, key: string, offset: nat, n: nat, failed: bool,
                             earlier: seq<Read>, later: seq<Read>)
    requires Extends(srv, cfg, key, offset, n, failed, earlier, later)
    requires CoveredBelow(srv, earlier, key, offset)
    ensures CoveredBelow(srv, later, key, offset + cfg.pageSize * n)
  {
    ReadsCover(srv, cfg, key, offset, n, earlier);
    SpanIsProduct(cfg.pageSize, n);
    ExtendsGrows(srv, cfg, key, offset, n, failed, earlier, later);
    CoverageSurvives(srv, key, offset + cfg.pageSize * n, earlier + ReadsFrom(srv, cfg, key, offset, n), later);
  }

  lemma ExtendsGrows(srv: Server, cfg: Config, key: string, offset: nat, n: nat, failed: bool,
                     earlier: seq<Read>, later: seq<Read>)
    requires Extends(srv, cfg, key, offset, n, failed, earlier, later)
    ensures earlier + ReadsFrom(srv, cfg, key, offset, n) <= later
  {}

  /** History only grows, and a scan keeps the record's key. */
  lemma ScanKeepsHistory(srv: Server, cfg: Config, key: string, mapped: bool, prior: Option<SourceScanState>, w: World)
    ensures
      var s := Scan(srv, cfg, key, mapped, prior, w);
      w.history <= s.world.history && s.state.key == key
  {
    var count := CountCall(srv, cfg.batchTimeout, w);
    if mapped && count.result.Done? && count.result.value.Some? && count.result.value.value != 0 {
      var total := count.result.value.value;
      PagesAreContiguous(srv, cfg, key, Target(cfg, total), w.clock + cfg.sourceTimeout,
                         Cursor(0, PriorOffset(prior), 0), count.world);
    }
  }

  lemma SampleKeepsCursorSound(srv: Server, cfg: Config, key: string, total: int, prior: Option<SourceScanState>,
                               t0: nat, w: World)
    requires prior.Some? ==> prior.value.key == key && CursorSound(srv, cfg, prior.value, w.history)
    ensures
      var run := SampleRun(srv, cfg, key, total, prior, t0, w);
      CursorSound(srv, cfg, CountedResult(Fresh(key, Running), total, prior, run.cursor, run.stop), run.world.history)
  {
    var c := Cursor(0, PriorOffset(prior), 0);
    var deadline := t0 + cfg.sourceTimeout;
    var run := SampleRun(srv, cfg, key, total, prior, t0, w);
    PagesAreContiguous(srv, cfg, key, Target(cfg, total), deadline, c, w);
    PagesMoveCursor(srv, cfg, key, Target(cfg, total), deadline, c, w);
    ContiguousReadsCover(srv, cfg, key, c.offset, run.cursor.pages,
                         run.stop.ReadTimedOut? || run.stop.ReadRaised?, w.history, run.world.history);
    assert cfg.pageSize * (PriorPages(prior) + run.cursor.pages)
        == cfg.pageSize * PriorPages(prior) + cfg.pageSize * run.cursor.pages;
  }

  lemma LegacyScanKeepsCursorSound(srv: Server, cfg: Config, key: string, w: World)
    ensures
      var page := ReadCall(srv, cfg, key, 0, w);
      CursorSound(srv, cfg, LegacyResult(cfg, Fresh(key, Running), page.result), page.world.history)
  {
    var page := ReadCall(srv, cfg, key, 0, w);
    OneReadExtends(srv, cfg, key, 0, w);
    if page.result.Done? {
      ContiguousReadsCover(srv, cfg, key, 0, 1, false, w.history, page.world.history);
    }
  }

  /** One scan, over any server behaviour, turns a sound prior cursor into a sound cursor. */
  lemma ScanKeepsCursorSound(srv: Server, cfg: Config, key: string, mapped: bool, prior: Option<SourceScanState>,
                             w: World)
    requires prior.Some? ==> prior.value.key == key && CursorSound(srv, cfg, prior.value, w.history)
    ensures
      var s := Scan(srv, cfg, key, mapped, prior, w);
      CursorSound(srv, cfg, s.state, s.world.history)
  {
    var count := CountCall(srv, cfg.batchTimeout, w);
    if mapped && count.result.Done? {
      if count.result.value.None? {
        LegacyScanKeepsCursorSound(srv, cfg, key, count.world);
      } else {
        SampleKeepsCursorSound(srv, cfg, key, count.result.value.value, prior, w.clock, count.world);
      }
    }
  }

  /** The first page of the counted sample is asked for, and brings nothing. */
  ghost predicate FirstPageFails(srv: Server, cfg: Config, key: string, total: int, from: nat, deadline: nat, w: World)
  {
    && Target(cfg, total) > 0 && cfg.maxPages > 0 && w.clock < deadline
    && !ReadCall(srv, cfg, key, from, w).result.Done?
  }

  /** How the server answers a scan that starts in `w`, in the cases where no resume cursor is stored. */
  ghost predicate NothingPaged(srv: Server, cfg: Config, key: string, mapped: bool, from: nat, w: World) {
    var count := CountCall(srv, cfg.batchTimeout, w);
    || !mapped
    || !count.result.Done?
    || count.result.value == Some(0)
    || (count.result.value.None? && (!ReadCall(srv, cfg, key, 0, count.world).result.Done? || cfg.pageSize < from))
    || (count.result.value.Some?
        && FirstPageFails(srv, cfg, key, count.result.value.value, from, w.clock + cfg.sourceTimeout, count.world))
  }

  /**
    When a rescan loses ground, told from the mapping and the server's replies: the source is
    unmapped, the count fails or is zero, the legacy page fails or ends before the cursor, or the
    first page of the sample is asked for and fails.
  */
  lemma RescanLosesCursorIff(srv: Server, cfg: Config, key: string, mapped: bool, prior: Option<SourceScanState>,
                             w: World)
    ensures Scan(srv, cfg, key, mapped, prior, w).state.nextOffset < PriorOffset(prior) <==>
              PriorOffset(prior) > 0 && NothingPaged(srv, cfg, key, mapped, PriorOffset(prior), w)
  {
    var count := CountCall(srv, cfg.batchTimeout, w);
    if mapped && count.result.Done? && count.result.value.Some? && count.result.value.value != 0 {
      SampleLosesCursorIff(srv, cfg, key, count.result.value.value, prior, w.clock, count.world);
    }
  }

  lemma SampleLosesCursorIff(srv: Server, cfg: Config, key: string, total: int, prior: Option<SourceScanState>,
                             t0: nat, w: World)
    ensures
      var run := SampleRun(srv, cfg, key, total, prior, t0, w);
      var st := CountedResult(Fresh(key, Running), total, prior, run.cursor, run.stop);
      st.nextOffset < PriorOffset(prior) <==>
        PriorOffset(prior) > 0 && FirstPageFails(srv, cfg, key, total, PriorOffset(prior), t0 + cfg.sourceTimeout, w)
  {
    var c := Cursor(0, PriorOffset(prior), 0);
    PagesMoveBySpan(srv, cfg, key, Target(cfg, total), t0 + cfg.sourceTimeout, c, w);
    if Target(cfg, total) > 0 && cfg.maxPages > 0 && w.clock < t0 + cfg.sourceTimeout {
      var call := ReadCall(srv, cfg, key, PriorOffset(prior), w);
      if call.result.Done? && |call.result.value| >= cfg.pageSize {
        var next := Cursor(|call.result.value|, c.offset + cfg.pageSize, 1);
        PagesMoveBySpan(srv, cfg, key, Target(cfg, total), t0 + cfg.sourceTimeout, next, call.world);
      }
    }
  }

  /** For one: a record that stood at row 300 restarts at row 0 when the count goes unanswered once. */
  lemma UnansweredCountLosesCursor(srv: Server, cfg: Config, prior: SourceScanState, w: World)
    requires prior.nextOffset == 300 && srv.countReplies(w.calls).Silent?
    ensures Scan(srv, cfg, prior.key, true, Some(prior), w).state.nextOffset == 0
  {
    RescanLosesCursorIff(srv, cfg, prior.key, true, Some(prior), w);
  }

  // ---------------------------------------------------------------------------------------------
  // Time bound
  // ---------------------------------------------------------------------------------------------

  lemma {:induction false} PagesEndInTime(srv: Server, cfg: Config, key: string, target: int, deadline: nat,
                                          c: Cursor, w: World)
    ensures
      var run := Pages(srv, cfg, key, target, deadline, c, w);
      w.clock <= run.world.clock && (run.world.clock <= w.clock || run.world.clock <= deadline + cfg.batchTimeout)
    decreases cfg.maxPages - c.pages
  {
    if c.seen < target && c.pages < cfg.maxPages && w.clock < deadline {
      var call := ReadCall(srv, cfg, key, c.offset, w);
      if call.result.Done? && |call.result.value| >= cfg.pageSize {
        PagesEndInTime(srv, cfg, key, target, deadline,
                       Cursor(c.seen + |call.result.value|, c.offset + cfg.pageSize, c.pages + 1), call.world);
      }
    }
  }

  /** One scan ends in time on every path, and `duration_ms` is exactly the time it took. */
  lemma ScanEndsInTime(srv: Server, cfg: Config, key: string, mapped: bool, prior: Option<SourceScanState>, w: World)
    ensures
      var s := Scan(srv, cfg, key, mapped, prior, w);
      && w.clock <= s.world.clock <= w.clock + cfg.SourceBound()
      && s.state.durationMs == Some(s.world.clock - w.clock)
  {
    var count := CountCall(srv, cfg.batchTimeout, w);
    if mapped && count.result.Done? && count.result.value.Some? && count.result.value.value != 0 {
      PagesEndInTime(srv, cfg, key, Target(cfg, count.result.value.value), w.clock + cfg.sourceTimeout,
                     Cursor(0, PriorOffset(prior), 0), count.world);
    }
  }

  // ---------------------------------------------------------------------------------------------
  // Paging refines one prefix read
  // ---------------------------------------------------------------------------------------------

  function CeilDiv(a: nat, b: nat): nat
    requires b >= 1
  {
    (a + b - 1) / b
  }

  function Min(a: nat, b: nat): nat {
    if a <= b then a else b
  }

  /** How many pages an undisturbed scan reads when `remaining` rows lie beyond the cursor. */
  function PagesNeeded(cfg: Config, target: int, remaining: int): nat
    requires cfg.Valid()
  {
    if target <= 0 then 0
    else
      var untilShort := if remaining < 0 then 1 else remaining / cfg.pageSize + 1;
      Min(cfg.maxPages, Min(CeilDiv(target, cfg.pageSize), untilShort))
  }

  /** Where the loop stops, in terms of the offset alone. */
  lemma {:induction false} PagesStopExactly(srv: Server, cfg: Config, key: string, target: int, deadline: nat,
                                            base: nat, c: Cursor, w: World)
    requires cfg.Valid()
    requires c.offset == base + c.seen
    ensures
      var run := Pages(srv, cfg, key, target, deadline, c, w);
      var size := |srv.tables(key)|;
      && c.pages <= run.cursor.pages
      && (c.pages == run.cursor.pages ==> run.cursor.offset == c.offset)
      && (c.pages + 1 == run.cursor.pages ==> run.cursor.offset == c.offset + cfg.pageSize)
      && (c.pages < run.cursor.pages ==>
            run.cursor.offset - cfg.pageSize < base + target && run.cursor.pages <= cfg.maxPages)
      && (c.pages + 1 < run.cursor.pages ==> run.cursor.offset - cfg.pageSize <= size)
      && (run.stop.Reached? ==>
            && (run.cursor.offset >= base + target || run.cursor.pages >= cfg.maxPages)
            && (c.pages < run.cursor.pages ==> run.cursor.offset <= size))
      && (run.stop.Short? ==> c.pages < run.cursor.pages && run.cursor.offset > size)
    decreases cfg.maxPages - c.pages
  {
    if c.seen < target && c.pages < cfg.maxPages && w.clock < deadline {
      var call := ReadCall(srv, cfg, key, c.offset, w);
      if call.result.Done? && |call.result.value| >= cfg.pageSize {
        PagesStopExactly(srv, cfg, key, target, deadline, base,
                         Cursor(c.seen + |call.result.value|, c.offset + cfg.pageSize, c.pages + 1), call.world);
      }
    }
  }

  lemma MulMonotone(a: nat, b: nat, c: nat)
    requires b <= c
    ensures a * b <= a * c
  {}

  lemma QuotientBetween(a: nat, b: nat, q: nat)
    requires b >= 1 && b * q <= a < b * q + b
    ensures a / b == q
  {
    if a / b > q {
      MulMonotone(b, q + 1, a / b);
    } else if a / b < q {
      MulMonotone(b, a / b + 1, q);
    }
  }

  lemma QuotientAtLeast(a: nat, b: nat, q: nat)
    requires b >= 1 && b * q <= a
    ensures a / b >= q
  {
    if a / b < q {
      MulMonotone(b, a / b + 1, q);
    }
  }

  lemma CeilBetween(a: nat, b: nat, q: nat)
    requires b >= 1 && q >= 1 && b * (q - 1) < a <= b * q
    ensures CeilDiv(a, b) == q
  {
    QuotientBetween(a + b - 1, b, q);
  }

  lemma CeilAtLeast(a: nat, b: nat, q: nat)
    requires b >= 1 && q >= 1 && b * (q - 1) < a
    ensures CeilDiv(a, b) >= q
  {
    QuotientAtLeast(a + b - 1, b, q);
  }

  /** An undisturbed run reads exactly `PagesNeeded` pages. */
  lemma UndisturbedPageCount(srv: Server, cfg: Config, key: string, target: int, deadline: nat, offset: nat, w: World)
    requires cfg.Valid()
    requires !Pages(srv, cfg, key, target, deadline, Cursor(0, offset, 0), w).stop.Interrupted()
    ensures Pages(srv, cfg, key, target, deadline, Cursor(0, offset, 0), w).cursor.pages
         == PagesNeeded(cfg, target, |srv.tables(key)| - offset)
  {
    var c := Cursor(0, offset, 0);
    var run := Pages(srv, cfg, key, target, deadline, c, w);
    var n := run.cursor.pages;
    var ps := cfg.pageSize;
    var remaining := |srv.tables(key)| - offset;
    PagesStopExactly(srv, cfg, key, target, deadline, offset, c, w);
    PagesMoveCursor(srv, cfg, key, target, deadline, c, w);
    if n > 0 {
      assert ps * n == ps * (n - 1) + ps;
      CeilAtLeast(target, ps, n);
      if run.stop.Short? {
        if remaining >= 0 {
          if n == 1 {
            assert ps * 0 == 0;
          }
          QuotientBetween(remaining, ps, n - 1);
        }
      } else {
        QuotientAtLeast(remaining, ps, n);
        if ps * n >= target {
          CeilBetween(target, ps, n);
        }
      }
    }
  }

  /** The rows a list of reads returned, in order. */
  ghost function RowsOf(history: seq<Read>): seq<Row> {
    if history == [] then []
    else (if history[0].outcome.Done? then history[0].outcome.value else []) + RowsOf(history[1..])
  }

  /** `n` further reads returned exactly `rows`, in order. */
  ghost predicate ReadInPages(earlier: seq<Read>, later: seq<Read>, n: nat, rows: seq<Row>) {
    earlier <= later && |later| == |earlier| + n && RowsOf(later[|earlier|..]) == rows
  }

  lemma PagesConcatenate(table: seq<Row>, offset: nat, a: nat, b: nat)
    ensures PageOf(table, offset, a) + PageOf(table, offset + a, b) == PageOf(table, offset, a + b)
  {}

  lemma RowsOfNext(srv: Server, cfg: Config, key: string, offset: nat, n: nat)
    requires n > 0
    ensures RowsOf(ReadsFrom(srv, cfg, key, offset, n))
         == PageOf(srv.tables(key), offset, cfg.pageSize)
             + RowsOf(ReadsFrom(srv, cfg, key, offset + cfg.pageSize, n - 1))
  {
    assert ReadsFrom(srv, cfg, key, offset, n)[1..] == ReadsFrom(srv, cfg, key, offset + cfg.pageSize, n - 1);
  }

  lemma {:induction false} ContiguousRows(srv: Server, cfg: Config, key: string, offset: nat, n: nat)
    ensures RowsOf(ReadsFrom(srv, cfg, key, offset, n)) == PageOf(srv.tables(key), offset, Span(cfg.pageSize, n))
    decreases n
  {
    if n > 0 {
      ContiguousRows(srv, cfg, key, offset + cfg.pageSize, n - 1);
      RowsOfNext(srv, cfg, key, offset, n);
      PagesConcatenate(srv.tables(key), offset, cfg.pageSize, Span(cfg.pageSize, n - 1));
    }
  }

  lemma CompletedSampleIsOneRead(srv: Server, cfg: Config, key: string, total: int, prior: Option<SourceScanState>,
                                 t0: nat, w: World)
    requires cfg.Valid() && !SampleRun(srv, cfg, key, total, prior, t0, w).stop.Interrupted()
    ensures
      var run := SampleRun(srv, cfg, key, total, prior, t0, w);
      var from := PriorOffset(prior);
      var n := PagesNeeded(cfg, Target(cfg, total), |srv.tables(key)| - from);
      && run.cursor.pages == n && run.cursor.offset == from + cfg.pageSize * n
      && ReadInPages(w.history, run.world.history, n, PageOf(srv.tables(key), from, cfg.pageSize * n))
  {
    var from := PriorOffset(prior);
    var c := Cursor(0, from, 0);
    var run := SampleRun(srv, cfg, key, total, prior, t0, w);
    var deadline := t0 + cfg.sourceTimeout;
    UndisturbedPageCount(srv, cfg, key, Target(cfg, total), deadline, from, w);
    PagesAreContiguous(srv, cfg, key, Target(cfg, total), deadline, c, w);
    PagesMoveCursor(srv, cfg, key, Target(cfg, total), deadline, c, w);
    assert run.world.history[|w.history|..] == ReadsFrom(srv, cfg, key, from, run.cursor.pages);
    ContiguousRows(srv, cfg, key, from, run.cursor.pages);
    SpanIsProduct(cfg.pageSize, run.cursor.pages);
  }

  /**
    A counted scan that completes, from any resume cursor and with any counted total, read exactly
    `PagesNeeded` pages, and together they are one read of the rows from the cursor on.
  */
  lemma CompletedScanIsOneRead(srv: Server, cfg: Config, key: string, mapped: bool, prior: Option<SourceScanState>,
                               w: World)
    requires cfg.Valid()
    requires
      var st := Scan(srv, cfg, key, mapped, prior, w).state;
      st.status.Completed? && st.total.Some?
    ensures
      var s := Scan(srv, cfg, key, mapped, prior, w);
      var from := PriorOffset(prior);
      var n := PagesNeeded(cfg, Target(cfg, s.state.total.value), |srv.tables(key)| - from);
      && s.state.count == s.state.total && s.state.complete && !s.state.capped
      && s.state.pagesDone == PriorPages(prior) + n && s.state.nextOffset == from + cfg.pageSize * n
      && ReadInPages(w.history, s.world.history, n, PageOf(srv.tables(key), from, cfg.pageSize * n))
  {
    var count := CountCall(srv, cfg.batchTimeout, w);
    CompletedSampleIsOneRead(srv, cfg, key, count.result.value.value, prior, w.clock, count.world);
  }

  /** With nothing read before and a budget that holds the sample, the sample size alone decides. */
  lemma FreshPageCount(cfg: Config, total: nat)
    requires cfg.Valid() && cfg.maxPages * cfg.pageSize >= cfg.sampleTarget
    ensures PagesNeeded(cfg, Target(cfg, total), total) == CeilDiv(Min(total, cfg.sampleTarget), cfg.pageSize)
  {
    var ps := cfg.pageSize;
    var target := Min(total, cfg.sampleTarget);
    if target == 0 {
      QuotientBetween(ps - 1, ps, 0);
    } else {
      var n := CeilDiv(target, ps);
      assert ps * n <= target + ps - 1;
      assert ps * (n - 1) < target;
      if n > cfg.maxPages {
        MulMonotone(ps, cfg.maxPages, n - 1);
      }
      QuotientAtLeast(total, ps, n - 1);
    }
  }

  /**
    The promise for a first scan with an exact count and a page budget that can hold the sample:
    ceil(min(total, sample_target) / page_size) reads, returning exactly that prefix of the table.
  */
  lemma FreshScanReadsThePrefix(srv: Server, cfg: Config, key: string, mapped: bool, prior: Option<SourceScanState>,
                                w: World)
    requires cfg.Valid() && PriorOffset(prior) == 0
    requires cfg.maxPages * cfg.pageSize >= cfg.sampleTarget
    requires
      var st := Scan(srv, cfg, key, mapped, prior, w).state;
      st.status.Completed? && st.total == Some(|srv.tables(key)|)
    ensures
      var s := Scan(srv, cfg, key, mapped, prior, w);
      var table := srv.tables(key);
      var n := CeilDiv(Min(|table|, cfg.sampleTarget), cfg.pageSize);
      && |s.world.history| == |w.history| + n
      && s.state.count == Some(|table|)
      && RowsOf(s.world.history[|w.history|..]) == table[..Min(|table|, cfg.pageSize * n)]
  {
    CompletedScanIsOneRead(srv, cfg, key, mapped, prior, w);
    FreshPageCount(cfg, |srv.tables(key)|);
    var table := srv.tables(key);
    var n := CeilDiv(Min(|table|, cfg.sampleTarget), cfg.pageSize);
    assert PageOf(table, 0, cfg.pageSize * n) == table[..Min(|table|, cfg.pageSize * n)];
  }

  // ---------------------------------------------------------------------------------------------
  // A healthy counting backend
  // ---------------------------------------------------------------------------------------------

  /** The most pages one scan can ask for: the page budget, or the pages that hold the sample. */
  function PageBudget(cfg: Config): nat
    requires cfg.Valid()
  {
    Min(cfg.maxPages, CeilDiv(cfg.sampleTarget, cfg.pageSize))
  }

  /** Every call answers within `d`, counts are supported, and the pages of one sample fit the source timeout. */
  ghost predicate Healthy(srv: Server, cfg: Config, d: nat) {
    && cfg.Valid()
    && d <= cfg.batchTimeout
    && d * PageBudget(cfg) < cfg.sourceTimeout
    && (forall n :: srv.countReplies(n).Answer? && srv.countReplies(n).after <= d && srv.countReplies(n).value.Some?)
    && (forall n :: srv.readReplies(n).Answer? && srv.readReplies(n).after <= d)
  }

  /** The shipped configuration, in milliseconds. */
  const DEFAULT_CONFIG := Config(100, 300, 50, 20000, 45000)

  /** With the shipped configuration any backend that answers within 14.999 s is healthy. */
  lemma DefaultsAreHealthy(srv: Server, d: nat)
    requires d < 15000
    requires forall n :: srv.countReplies(n).Answer? && srv.countReplies(n).after <= d
                 && srv.countReplies(n).value.Some?
    requires forall n :: srv.readReplies(n).Answer? && srv.readReplies(n).after <= d
    ensures Healthy(srv, DEFAULT_CONFIG, d)
  {
    assert PageBudget(DEFAULT_CONFIG) == 3;
  }

  lemma {:induction false} HealthyPagesAreUndisturbed(srv: Server, cfg: Config, d: nat, key: string, target: int,
                                                      deadline: nat, c: Cursor, w: World)
    requires Healthy(srv, cfg, d) && target <= cfg.sampleTarget
    requires c.seen == Span(cfg.pageSize, c.pages)
    requires w.clock + cfg.sourceTimeout <= deadline + Span(d, c.pages + 1)
    ensures !Pages(srv, cfg, key, target, deadline, c, w).stop.Interrupted()
    decreases cfg.maxPages - c.pages
  {
    if c.seen < target && c.pages < cfg.maxPages {
      RoomForOneMore(cfg, d, c.pages);
      var call := ReadCall(srv, cfg, key, c.offset, w);
      if |call.result.value| >= cfg.pageSize {
        HealthyPagesAreUndisturbed(srv, cfg, d, key, target, deadline,
                                   Cursor(c.seen + |call.result.value|, c.offset + cfg.pageSize, c.pages + 1),
                                   call.world);
      }
    }
  }

  /** A page that is still needed is within the budget, so it starts before the deadline. */
  lemma RoomForOneMore(cfg: Config, d: nat, pages: nat)
    requires cfg.Valid() && Span(cfg.pageSize, pages) < cfg.sampleTarget && pages < cfg.maxPages
    requires d * PageBudget(cfg) < cfg.sourceTimeout
    ensures Span(d, pages + 1) < cfg.sourceTimeout
  {
    SpanIsProduct(cfg.pageSize, pages);
    SpanIsProduct(d, pages + 1);
    CeilAtLeast(cfg.sampleTarget, cfg.pageSize, pages + 1);
    MulMonotone(d, pages + 1, PageBudget(cfg));
  }

  /** Against a healthy backend every scan ends settled and final, from any prior cursor. */
  lemma HealthyScanCompletes(srv: Server, cfg: Config, d: nat, key: string, mapped: bool,
                             prior: Option<SourceScanState>, w: World)
    requires Healthy(srv, cfg, d)
    ensures
      var st := Scan(srv, cfg, key, mapped, prior, w).state;
      st.status == (if !mapped then Unmapped else if st.total == Some(0) then Empty else Completed)
  {
    if mapped {
      var count := CountCall(srv, cfg.batchTimeout, w);
      var total := count.result.value.value;
      assert Span(d, 1) == d + Span(d, 0);
      HealthyPagesAreUndisturbed(srv, cfg, d, key, Target(cfg, total), w.clock + cfg.sourceTimeout,
                                 Cursor(0, PriorOffset(prior), 0), count.world);
    }
  }
}
