/** Deadline, retry discipline and evidence accounting of the Odoo node. */
module OdooNodeLaws {
  import opened Coverage
  import opened OdooNode

  // ---------------------------------------------------------------------------------------------
  // Every wait ends in time
  // ---------------------------------------------------------------------------------------------

  ghost predicate WaitInTime(wait: Wait, deadline: nat) {
    && wait.begin <= wait.end <= deadline
    && (wait.ReadWait? ==> wait.end <= wait.begin + wait.timeout <= deadline)
    && !wait.IndexWait?
  }

  /** `later` continues `earlier`, and every wait it adds ends at or before the deadline. */
  ghost predicate InTime(earlier: World, later: World, deadline: nat) {
    && earlier.waits <= later.waits
    && earlier.clock <= later.clock
    && (later.clock <= deadline || later.clock == earlier.clock)
    && (forall i :: |earlier.waits| <= i < |later.waits| ==> WaitInTime(later.waits[i], deadline))
  }

  lemma InTimeTransitive(a: World, b: World, c: World, deadline: nat)
    requires InTime(a, b, deadline) && InTime(b, c, deadline)
    ensures InTime(a, c, deadline)
  {
    forall i | |a.waits| <= i < |c.waits|
      ensures WaitInTime(c.waits[i], deadline)
    {
      if i < |b.waits| { assert c.waits[i] == b.waits[i]; }
    }
  }

  lemma TimedReadInTime(script: Script, name: string, cap: nat, deadline: nat, w: World)
    ensures InTime(w, TimedRead(script, name, cap, deadline, w).world, deadline)
  {}

  lemma RetryInTime(script: Script, name: string, cap: nat, deadline: nat, w: World)
    ensures InTime(w, ReadWithRetry(script, name, cap, deadline, w).world, deadline)
  {
    var first := TimedRead(script, name, cap, deadline, w);
    TimedReadInTime(script, name, cap, deadline, w);
    if first.outcome.Raised? && deadline - first.world.clock >= cap + BACKOFF + RETRY_SLACK {
      var slept := Sleep(first.world);
      assert InTime(first.world, slept, deadline);
      InTimeTransitive(w, first.world, slept, deadline);
      TimedReadInTime(script, name, cap, deadline, slept);
      InTimeTransitive(w, slept, TimedRead(script, name, cap, deadline, slept).world, deadline);
    }
  }

  lemma {:induction false} ExtendedInTime(script: Script, specs: seq<Spec>, deadline: nat, x: Extended)
    ensures InTime(x.world, ExtendAll(script, specs, deadline, x).world, deadline)
  {
    if specs != [] {
      var n := |specs| - 1;
      ExtendedInTime(script, specs[..n], deadline, x);
      var y := ExtendAll(script, specs[..n], deadline, x);
      TimedReadInTime(script, specs[n].key, EXTENDED_TIMEOUT, deadline, y.world);
      InTimeTransitive(x.world, y.world, ExtendOne(script, specs[n], deadline, y).world, deadline);
    }
  }

  lemma AfterProjectInTime(q: Query, rows: seq<Evidence>, deadline: nat, w: World)
    ensures InTime(w, AfterProject(q, rows, deadline, w).world, deadline)
  {
    if q.cost != BadAccount {
      CostInTime(q, deadline, w);
      var afterCost := CostLines(q, deadline, w).world;
      OptionalInTime(q, deadline, afterCost);
      InTimeTransitive(w, afterCost, Optional(q, deadline, afterCost).world, deadline);
    }
  }

  lemma OptionalInTime(q: Query, deadline: nat, w: World)
    ensures InTime(w, Optional(q, deadline, w).world, deadline)
  {
    ExtendedInTime(q.script, q.specs, deadline, NothingExtended(w));
  }

  /** The node stops at a failed project read, or goes on with its rows. */
  lemma NodeCases(q: Query, w: World)
    requires !q.denied
    ensures
      var deadline := w.clock + NODE_BUDGET;
      var project := ReadWithRetry(q.script, "project_identity", IDENTITY_TIMEOUT, deadline, w);
      Retrieved(q, w) ==
        if project.outcome.Got?
        then AfterProject(q, Tagged(project.outcome.ids, ""), deadline, project.world)
        else Stopped(q, if project.outcome.TimedOut? then TimedOutStatus else ConnectorError, [], project.world)
  {}

  /** Whatever the server does, every read and sleep ends within the 50 s budget, and so does the coverage record. */
  lemma RetrievalEndsInTime(q: Query, w: World)
    ensures InTime(w, Retrieved(q, w).world, w.clock + NODE_BUDGET)
    ensures w.clock <= Retrieved(q, w).world.clock <= w.clock + NODE_BUDGET
  {
    var end := Retrieved(q, w).world;
    var deadline := w.clock + NODE_BUDGET;
    if q.denied {
      assert end == w;
    } else {
      NodeCases(q, w);
      var project := ReadWithRetry(q.script, "project_identity", IDENTITY_TIMEOUT, deadline, w);
      RetryInTime(q.script, "project_identity", IDENTITY_TIMEOUT, deadline, w);
      if project.outcome.Got? {
        AfterProjectInTime(q, Tagged(project.outcome.ids, ""), deadline, project.world);
        InTimeTransitive(w, project.world, end, deadline);
      } else {
        assert end == project.world;
      }
    }
  }

  /**
    The node itself may end later, by the time its indexing takes and no more: the retrieval's waits
    come first and end in time, and only one that ran to its end is followed by an indexing wait.
  */
  lemma NodeEndsInTime(q: Query, w: World)
    ensures
      var recorded, end := Retrieved(q, w).world, Node(q, w).world;
      && InTime(w, recorded, w.clock + NODE_BUDGET) && recorded.waits <= end.waits
      && recorded.clock <= w.clock + NODE_BUDGET
      && (end == recorded
          || (end.waits == recorded.waits + [IndexWait(recorded.clock, end.clock)]
              && end.clock == recorded.clock + q.indexing))
      && (Retrieved(q, w).costStatus == CostSkipped <==> end == recorded)
  {
    RetrievalEndsInTime(q, w);
    assert |Indexed(q, Retrieved(q, w).world).waits| == |Retrieved(q, w).world.waits| + 1;
  }

  lemma CostInTime(q: Query, deadline: nat, w: World)
    ensures InTime(w, CostLines(q, deadline, w).world, deadline)
  {
    RetryInTime(q.script, "actual_cost", COST_TIMEOUT, deadline, w);
  }

  /**
    The retry discipline of an inline read. It makes no read when no time remains, one read
    otherwise, and a second only after a failure that was not a timeout; the second comes after one
    backoff sleep and gets its full timeout, never a shortened one.
  */
  lemma RetryDiscipline(script: Script, name: string, cap: nat, deadline: nat, w: World)
    ensures
      var r := ReadWithRetry(script, name, cap, deadline, w);
      var added := r.world.waits[|w.waits|..];
      && |w.waits| <= |r.world.waits|
      && (|added| == 0 || |added| == 1 || |added| == 3)
      && (|added| == 0 <==> w.clock >= deadline)
      && (|added| == 0 ==> r.outcome == TimedOut)
      && (|added| == 1 ==> added[0].ReadWait? && added[0].name == name && added[0].outcome == r.outcome)
      && (|added| == 3 ==>
            && added[0].ReadWait? && added[0].outcome == Raised && added[0].begin == w.clock
            && added[1].SleepWait? && added[1].begin == added[0].end && added[1].end == added[1].begin + BACKOFF
            && added[2].ReadWait? && added[2].begin == added[1].end && added[2].end == r.world.clock
            && added[2].timeout == cap && added[2].outcome == r.outcome)
  {}

  // ---------------------------------------------------------------------------------------------
  // Evidence accounting
  // ---------------------------------------------------------------------------------------------

  ghost predicate DistinctSpecs(specs: seq<Spec>) {
    forall i, j :: 0 <= i < j < |specs| ==> specs[i].key != specs[j].key
  }

  function CountTag(rows: seq<Evidence>, tag: string): nat {
    if rows == [] then 0
    else CountTag(rows[..|rows| - 1], tag) + (if rows[|rows| - 1].tag == tag then 1 else 0)
  }

  lemma {:induction false} CountTagged(rows: seq<Evidence>, ids: seq<string>, tag: string, t: string)
    ensures CountTag(rows + Tagged(ids, tag), t) == CountTag(rows, t) + (if t == tag then |ids| else 0)
    decreases |ids|
  {
    if ids == [] {
      assert rows + Tagged(ids, tag) == rows;
    } else {
      var n := |ids| - 1;
      CountTagged(rows, ids[..n], tag, t);
      assert (rows + Tagged(ids, tag))[..|rows| + n] == rows + Tagged(ids[..n], tag);
    }
  }

  /** The counts of the given sources, added up. */
  function SumCounts(counts: map<string, nat>, specs: seq<Spec>): nat {
    if specs == [] then 0
    else
      SumCounts(counts, specs[..|specs| - 1])
      + (if specs[|specs| - 1].key in counts then counts[specs[|specs| - 1].key] else 0)
  }

  lemma {:induction false} SumCountsSame(a: map<string, nat>, b: map<string, nat>, specs: seq<Spec>)
    requires forall s :: s in specs ==> (s.key in a <==> s.key in b) && (s.key in a ==> a[s.key] == b[s.key])
    ensures SumCounts(a, specs) == SumCounts(b, specs)
  {
    if specs != [] {
      assert specs[|specs| - 1] in specs;
      assert forall s :: s in specs[..|specs| - 1] ==> s in specs;
      SumCountsSame(a, b, specs[..|specs| - 1]);
    }
  }

  ghost predicate KeyAmong(specs: seq<Spec>, k: string) {
    exists i :: 0 <= i < |specs| && specs[i].key == k
  }

  /** The counts add up to what was appended, and each counts the rows tagged with its source. */
  ghost predicate CountsMatch(specs: seq<Spec>, x: Extended) {
    && x.added == |x.rows| == SumCounts(x.counts, specs)
    && (forall k :: k in x.counts ==> CountTag(x.rows, k) == x.counts[k])
    && (forall i :: 0 <= i < |x.rows| ==> x.rows[i].source == OdooSource && x.rows[i].tag in x.counts)
  }

  /** Every source looked at has a count and a status, and "ok" means it contributed. */
  ghost predicate Listed(specs: seq<Spec>, x: Extended) {
    && (forall k :: k in x.counts ==> KeyAmong(specs, k))
    && x.statuses.Keys == x.counts.Keys
    && (!x.budgetHit ==> forall i :: 0 <= i < |specs| ==> specs[i].key in x.counts)
    && (forall k :: k in x.counts ==> (x.counts[k] > 0 <==> x.statuses[k] == SOk))
  }

  /** The books of the extended loop after `specs`. */
  ghost predicate Balanced(specs: seq<Spec>, x: Extended) {
    CountsMatch(specs, x) && Listed(specs, x)
  }

  lemma KeyAmongSnoc(specs: seq<Spec>, spec: Spec, k: string)
    ensures KeyAmong(specs + [spec], k) <==> KeyAmong(specs, k) || k == spec.key
  {
    var all := specs + [spec];
    assert all[|specs|] == spec;
    if i :| 0 <= i < |specs| && specs[i].key == k { assert all[i].key == k; }
    if i :| 0 <= i < |all| && all[i].key == k {
      if i < |specs| { assert specs[i].key == k; }
    }
  }

  lemma SumCountsSnoc(specs: seq<Spec>, spec: Spec, counts: map<string, nat>, n: nat)
    requires !KeyAmong(specs, spec.key)
    ensures SumCounts(counts[spec.key := n], specs + [spec]) == SumCounts(counts, specs) + n
  {
    assert (specs + [spec])[..|specs|] == specs;
    forall s | s in specs
      ensures s.key != spec.key
    {
      var i :| 0 <= i < |specs| && specs[i] == s;
      assert specs[i].key == s.key;
    }
    SumCountsSame(counts, counts[spec.key := n], specs);
  }

  lemma CountsStep(specs: seq<Spec>, spec: Spec, x: Extended, y: Extended, ids: seq<string>)
    requires CountsMatch(specs, x) && !KeyAmong(specs, spec.key) && spec.key !in x.counts
    requires y.rows == x.rows + Tagged(ids, spec.key) && y.added == x.added + |ids|
    requires y.counts == x.counts[spec.key := |ids|]
    ensures CountsMatch(specs + [spec], y)
  {
    SumCountsSnoc(specs, spec, x.counts, |ids|);
    forall k | k in y.counts
      ensures CountTag(y.rows, k) == y.counts[k]
    {
      CountTagged(x.rows, ids, spec.key, k);
      if k == spec.key { NotTagged(x.rows, k); }
    }
  }

  lemma ListedStep(specs: seq<Spec>, spec: Spec, x: Extended, y: Extended, n: nat, status: SourceStatus)
    requires Listed(specs, x) && !x.budgetHit
    requires status == SOk <==> n > 0
    requires y.counts == x.counts[spec.key := n] && y.statuses == x.statuses[spec.key := status]
    ensures Listed(specs + [spec], y)
  {
    forall k | k in y.counts
      ensures KeyAmong(specs + [spec], k)
    {
      KeyAmongSnoc(specs, spec, k);
    }
  }

  lemma {:induction false} NotTagged(rows: seq<Evidence>, t: string)
    requires forall i :: 0 <= i < |rows| ==> rows[i].tag != t
    ensures CountTag(rows, t) == 0
  {
    if rows != [] { NotTagged(rows[..|rows| - 1], t); }
  }

  lemma StoppedStaysBalanced(specs: seq<Spec>, spec: Spec, x: Extended)
    requires Balanced(specs, x) && x.budgetHit && !KeyAmong(specs, spec.key)
    ensures Balanced(specs + [spec], x)
  {
    assert (specs + [spec])[..|specs|] == specs;
    forall k | k in x.counts
      ensures KeyAmong(specs + [spec], k)
    {
      KeyAmongSnoc(specs, spec, k);
    }
  }

  /**
    The extended sources balance: the total is the number of rows appended and the sum of the
    per-source counts, each count is the number of rows tagged with that source, and unless the
    budget ran out every source has a count and a status.
  */
  lemma {:induction false} ExtendedBalances(script: Script, specs: seq<Spec>, deadline: nat, w: World)
    requires DistinctSpecs(specs)
    ensures Balanced(specs, ExtendAll(script, specs, deadline, NothingExtended(w)))
  {
    if specs != [] {
      var n := |specs| - 1;
      var front, spec := specs[..n], specs[n];
      assert specs == front + [spec];
      ExtendedBalances(script, front, deadline, w);
      var x := ExtendAll(script, front, deadline, NothingExtended(w));
      assert !KeyAmong(front, spec.key);
      if x.budgetHit {
        StoppedStaysBalanced(front, spec, x);
      } else {
        ExtendOneBalances(script, front, spec, deadline, x);
      }
    }
  }

  /** What looking at one source adds: its rows, its count and its status. */
  lemma ExtendedOnce(script: Script, spec: Spec, deadline: nat, x: Extended)
    returns (ids: seq<string>, status: SourceStatus)
    requires !x.budgetHit
    ensures
      var y := ExtendOne(script, spec, deadline, x);
      && y.rows == x.rows + Tagged(ids, spec.key) && y.added == x.added + |ids|
      && y.counts == x.counts[spec.key := |ids|] && y.statuses == x.statuses[spec.key := status]
    ensures status == SOk <==> |ids| > 0
  {
    var outcome := TimedRead(script, spec.key, EXTENDED_TIMEOUT, deadline, x.world).outcome;
    ids := if spec.mapped && outcome.Got? then outcome.ids else [];
    status := ExtendOne(script, spec, deadline, x).statuses[spec.key];
    assert x.rows + Tagged([], spec.key) == x.rows;
  }

  lemma ExtendOneBalances(script: Script, front: seq<Spec>, spec: Spec, deadline: nat, x: Extended)
    requires Balanced(front, x) && !x.budgetHit && !KeyAmong(front, spec.key)
    ensures Balanced(front + [spec], ExtendOne(script, spec, deadline, x))
  {
    var y := ExtendOne(script, spec, deadline, x);
    var ids, status := ExtendedOnce(script, spec, deadline, x);
    CountsStep(front, spec, x, y, ids);
    ListedStep(front, spec, x, y, |ids|, status);
  }

  /** A result whose record, extended books and financial flag all agree with what was appended. */
  ghost predicate ResultAccounted(q: Query, r: Result) {
    && Accounted(r.contribution, OdooSource, q.enabled)
    && (r.extended.Some? ==> Balanced(q.specs, r.extended.value))
    && (r.financialAvailable ==> r.costStatus == CostRead && r.contribution.appended != [])
  }

  lemma AfterProjectIsAccounted(q: Query, rows: seq<Evidence>, deadline: nat, w: World)
    requires DistinctSpecs(q.specs)
    requires forall i :: 0 <= i < |rows| ==> rows[i].source == OdooSource
    ensures ResultAccounted(q, AfterProject(q, rows, deadline, w))
  {
    if q.cost != BadAccount {
      ExtendedBalances(q.script, q.specs, deadline, CostLines(q, deadline, w).world);
    }
  }

  lemma StoppedIsAccounted(q: Query, status: Status, w: World)
    requires status == TimedOutStatus || status == ConnectorError
    ensures ResultAccounted(q, Stopped(q, status, [], w))
  {}

  /** The Odoo node's record counts what was appended on every path, and never hides a skip. */
  lemma OdooIsAccounted(q: Query, w: World)
    requires DistinctSpecs(q.specs)
    ensures ResultAccounted(q, Node(q, w))
  {
    if !q.denied {
      NodeCases(q, w);
      var deadline := w.clock + NODE_BUDGET;
      var project := ReadWithRetry(q.script, "project_identity", IDENTITY_TIMEOUT, deadline, w);
      if project.outcome.Got? {
        AfterProjectIsAccounted(q, Tagged(project.outcome.ids, ""), deadline, project.world);
      } else {
        StoppedIsAccounted(q, if project.outcome.TimedOut? then TimedOutStatus else ConnectorError, project.world);
      }
    }
  }
}
