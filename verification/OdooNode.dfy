/**
  Odoo facts retrieval (apps/edr/graph/node_08_odoo.py): two inline reads with one retry each, then
  the optional extended sources, all against one node deadline. Times are in milliseconds.
*/
module OdooNode {
  import opened Wrappers
  import opened Coverage

  const NODE_BUDGET: nat := 50000
  const IDENTITY_TIMEOUT: nat := 25000
  const COST_TIMEOUT: nat := 20000
  const EXTENDED_TIMEOUT: nat := 5000
  const BACKOFF: nat := 500
  const RETRY_SLACK: nat := 500

  datatype Reply = Answer(after: nat, ids: seq<string>) | Fault(after: nat) | Silent
  datatype Outcome = Got(ids: seq<string>) | Raised | TimedOut

  /** One wait of the node: a read with its timeout, the backoff sleep, or the indexing of the evidence. */
  datatype Wait =
    | ReadWait(name: string, begin: nat, end: nat, timeout: nat, outcome: Outcome)
    | SleepWait(begin: nat, end: nat)
    | IndexWait(begin: nat, end: nat)

  datatype World = World(clock: nat, calls: nat, waits: seq<Wait>)

  /** `replies(n)` scripts the n-th read. */
  type Script = nat -> Reply

  // ---------------------------------------------------------------------------------------------
  // Reads
  // ---------------------------------------------------------------------------------------------

  function Observed(reply: Reply, timeout: nat): Outcome {
    match reply
    case Answer(after, ids) => if after <= timeout then Got(ids) else TimedOut
    case Fault(after) => if after <= timeout then Raised else TimedOut
    case Silent => TimedOut
  }

  function Elapsed(reply: Reply, timeout: nat): (t: nat)
    ensures t <= timeout
  {
    match reply
    case Silent => timeout
    case _ => if reply.after <= timeout then reply.after else timeout
  }

  datatype Step = Step(outcome: Outcome, world: World)

  /** A read with the time that remains; with none left it times out without being issued. */
  function TimedRead(script: Script, name: string, cap: nat, deadline: nat, w: World): Step {
    if w.clock >= deadline then Step(TimedOut, w)
    else
      var remaining := deadline - w.clock;
      var timeout := if cap < remaining then cap else remaining;
      var reply := script(w.calls);
      var outcome := Observed(reply, timeout);
      var end := w.clock + Elapsed(reply, timeout);
      Step(outcome, World(end, w.calls + 1, w.waits + [ReadWait(name, w.clock, end, timeout, outcome)]))
  }

  function Sleep(w: World): World {
    World(w.clock + BACKOFF, w.calls, w.waits + [SleepWait(w.clock, w.clock + BACKOFF)])
  }

  /** One retry after a failure that is not a timeout, when a full attempt still fits. */
  function ReadWithRetry(script: Script, name: string, cap: nat, deadline: nat, w: World): Step {
    var first := TimedRead(script, name, cap, deadline, w);
    if !first.outcome.Raised? || deadline - first.world.clock < cap + BACKOFF + RETRY_SLACK then first
    else TimedRead(script, name, cap, deadline, Sleep(first.world))
  }

  // ---------------------------------------------------------------------------------------------
  // Extended sources
  // ---------------------------------------------------------------------------------------------

  /** A registry source and whether the mapping can scope a query for it. */
  datatype Spec = Spec(key: string, mapped: bool)

  datatype SourceStatus = SUnmapped | SOk | SEmpty | STimeout | SError

  /** The running totals of the extended loop. */
  datatype Extended = Extended(
    rows: seq<Evidence>, added: nat, counts: map<string, nat>, statuses: map<string, SourceStatus>,
    budgetHit: bool, world: World)

  function Tagged(ids: seq<string>, tag: string): (rows: seq<Evidence>)
    ensures |rows| == |ids|
    ensures forall i :: 0 <= i < |rows| ==> rows[i] == Evidence(ids[i], OdooSource, tag)
  {
    seq(|ids|, i requires 0 <= i < |ids| => Evidence(ids[i], OdooSource, tag))
  }

  function ExtendOne(script: Script, spec: Spec, deadline: nat, x: Extended): Extended {
    if x.budgetHit then x
    else if !spec.mapped then x.(counts := x.counts[spec.key := 0], statuses := x.statuses[spec.key := SUnmapped])
    else
      var read := TimedRead(script, spec.key, EXTENDED_TIMEOUT, deadline, x.world);
      match read.outcome
      case TimedOut =>
        x.(counts := x.counts[spec.key := 0], statuses := x.statuses[spec.key := STimeout],
           budgetHit := read.world.clock >= deadline, world := read.world)
      case Raised =>
        x.(counts := x.counts[spec.key := 0], statuses := x.statuses[spec.key := SError], world := read.world)
      case Got(ids) =>
        Extended(x.rows + Tagged(ids, spec.key), x.added + |ids|, x.counts[spec.key := |ids|],
                 x.statuses[spec.key := if ids == [] then SEmpty else SOk], false, read.world)
  }

  function ExtendAll(script: Script, specs: seq<Spec>, deadline: nat, x: Extended): Extended {
    if specs == [] then x
    else ExtendOne(script, specs[|specs| - 1], deadline, ExtendAll(script, specs[..|specs| - 1], deadline, x))
  }

  /** Once the budget is gone the remaining sources are not looked at. */
  lemma {:induction false} StopsWhenBudgetHit(script: Script, specs: seq<Spec>, i: nat, deadline: nat, x: Extended)
    requires i <= |specs| && ExtendAll(script, specs[..i], deadline, x).budgetHit
    ensures ExtendAll(script, specs, deadline, x) == ExtendAll(script, specs[..i], deadline, x)
    decreases |specs|
  {
    if i == |specs| {
      assert specs[..i] == specs;
    } else {
      var n := |specs| - 1;
      assert specs[..n][..i] == specs[..i];
      StopsWhenBudgetHit(script, specs[..n], i, deadline, x);
    }
  }

  /** What the extended loop adds is what it appends. */
  lemma {:induction false} AddedIsAppended(script: Script, specs: seq<Spec>, deadline: nat, x: Extended)
    requires x.added == |x.rows|
    ensures var y := ExtendAll(script, specs, deadline, x); y.added == |y.rows|
  {
    if specs != [] { AddedIsAppended(script, specs[..|specs| - 1], deadline, x); }
  }

  function NothingExtended(w: World): Extended {
    Extended([], 0, map[], map[], false, w)
  }

  // ---------------------------------------------------------------------------------------------
  // The node
  // ---------------------------------------------------------------------------------------------

  /** No verified analytic account, a usable one, or one whose id does not parse (which raises). */
  datatype CostQuery = NoAccount | Account | BadAccount

  /** `indexing` is the time the supplementary embedding and indexing take; nothing bounds it. */
  datatype Query = Query(
    enabled: bool, denied: bool, script: Script, cost: CostQuery, extendedEnabled: bool, specs: seq<Spec>,
    indexing: nat)

  datatype CostStatus = CostRead | CostTimedOut | CostFailed | CostNone | CostSkipped

  datatype Result = Result(
    contribution: Contribution,
    extended: Option<Extended>,
    costStatus: CostStatus,
    financialAvailable: bool,
    world: World)

  /** The project record could not be read, or the cost query could not be built. */
  function Stopped(q: Query, status: Status, rows: seq<Evidence>, w: World): Result {
    Result(Contribution(rows, Entry(q.enabled, true, status, |rows|)), None, CostSkipped, false, w)
  }

  datatype CostStep = CostStep(rows: seq<Evidence>, status: CostStatus, world: World)

  /** The cost lines of the verified analytic account; a failed read is recorded, never raised. */
  function CostLines(q: Query, deadline: nat, w: World): CostStep {
    if q.cost == NoAccount then CostStep([], CostNone, w)
    else
      var read := ReadWithRetry(q.script, "actual_cost", COST_TIMEOUT, deadline, w);
      match read.outcome
      case Got(ids) => CostStep(Tagged(ids, ""), CostRead, read.world)
      case TimedOut => CostStep([], CostTimedOut, read.world)
      case Raised => CostStep([], CostFailed, read.world)
  }

  /** The opt-in extended retrieval; with it disabled nothing is read. */
  function Optional(q: Query, deadline: nat, w: World): Extended {
    if q.extendedEnabled then ExtendAll(q.script, q.specs, deadline, NothingExtended(w)) else NothingExtended(w)
  }

  function Closed(q: Query, all: seq<Evidence>): Contribution {
    Contribution(all, Entry(q.enabled, true, if all != [] then Ok else ZeroNoMatch, |all|))
  }

  function AfterProject(q: Query, rows: seq<Evidence>, deadline: nat, w: World): Result {
    if q.cost == BadAccount then Stopped(q, ConnectorError, rows, w)
    else
      var cost := CostLines(q, deadline, w);
      var x := Optional(q, deadline, cost.world);
      Result(Closed(q, rows + cost.rows + x.rows), if q.extendedEnabled then Some(x) else None,
             cost.status, cost.rows != [], x.world)
  }

  /** The node up to its coverage record. */
  function Retrieved(q: Query, w: World): Result {
    if q.denied then Result(Contribution([], Entry(q.enabled, false, RbacDenied, 0)), None, CostSkipped, false, w)
    else
      var deadline := w.clock + NODE_BUDGET;
      var project := ReadWithRetry(q.script, "project_identity", IDENTITY_TIMEOUT, deadline, w);
      match project.outcome
      case TimedOut => Stopped(q, TimedOutStatus, [], project.world)
      case Raised => Stopped(q, ConnectorError, [], project.world)
      case Got(ids) => AfterProject(q, Tagged(ids, ""), deadline, project.world)
  }

  function Indexed(q: Query, w: World): World {
    w.(clock := w.clock + q.indexing, waits := w.waits + [IndexWait(w.clock, w.clock + q.indexing)])
  }

  /** A retrieval that ran to its end has its evidence indexed, outside the budget. */
  function Node(q: Query, w: World): Result {
    var r := Retrieved(q, w);
    if r.costStatus == CostSkipped then r else r.(world := Indexed(q, r.world))
  }

  // ---------------------------------------------------------------------------------------------
  // The node as the program runs it
  // ---------------------------------------------------------------------------------------------

  class OdooClient {
    const script: Script
    var world: World

    constructor (script: Script, world: World)
      ensures this.script == script && this.world == world
    {
      this.script, this.world := script, world;
    }

    method ReadTimed(name: string, cap: nat, deadline: nat) returns (outcome: Outcome)
      modifies this
      ensures Step(outcome, world) == TimedRead(script, name, cap, deadline, old(world))
    {
      var read := TimedRead(script, name, cap, deadline, world);
      outcome, world := read.outcome, read.world;
    }

    method ReadRetrying(name: string, cap: nat, deadline: nat) returns (outcome: Outcome)
      modifies this
      ensures Step(outcome, world) == ReadWithRetry(script, name, cap, deadline, old(world))
    {
      outcome := ReadTimed(name, cap, deadline);
      if !outcome.Raised? {
        return;
      }
      if deadline - world.clock < cap + BACKOFF + RETRY_SLACK {
        return;
      }
      world := Sleep(world);
      outcome := ReadTimed(name, cap, deadline);
    }

    /** The extended loop; appends rows to the state as they arrive. */
    method RetrieveExtended(state: DecisionState, specs: seq<Spec>, deadline: nat) returns (x: Extended)
      modifies this, state
      ensures x == ExtendAll(script, specs, deadline, NothingExtended(old(world))) && world == x.world
      ensures state.evidence == old(state.evidence) + x.rows && state.coverage == old(state.coverage)
    {
      var added: nat, counts: map<string, nat>, statuses: map<string, SourceStatus> := 0, map[], map[];
      var rows: seq<Evidence>, hit := [], false;
      ghost var start := NothingExtended(world);
      for i := 0 to |specs|
        invariant !hit
        invariant Extended(rows, added, counts, statuses, hit, world) == ExtendAll(script, specs[..i], deadline, start)
        invariant state.evidence == old(state.evidence) + rows && state.coverage == old(state.coverage)
      {
        assert specs[..i + 1][..i] == specs[..i];
        var spec := specs[i];
        if !spec.mapped {
          statuses, counts := statuses[spec.key := SUnmapped], counts[spec.key := 0];
          continue;
        }
        var outcome := ReadTimed(spec.key, EXTENDED_TIMEOUT, deadline);
        if outcome.TimedOut? {
          statuses, counts := statuses[spec.key := STimeout], counts[spec.key := 0];
          if world.clock >= deadline {
            hit := true;
            StopsWhenBudgetHit(script, specs, i + 1, deadline, start);
            break;
          }
        } else if outcome.Raised? {
          statuses, counts := statuses[spec.key := SError], counts[spec.key := 0];
        } else {
          var found := Tagged(outcome.ids, spec.key);
          state.evidence := state.evidence + found;
          rows := rows + found;
          counts := counts[spec.key := |found|];
          statuses := statuses[spec.key := if found != [] then SOk else SEmpty];
          added := added + |found|;
        }
      }
      assert specs[..|specs|] == specs;
      x := Extended(rows, added, counts, statuses, hit, world);
    }

    /** The cost lines; a failure is recorded in the outputs and never stops the node. */
    method RetrieveCost(state: DecisionState, q: Query, deadline: nat) returns (added: nat)
      requires q.script == script && q.cost != BadAccount
      modifies this, state
      ensures
        var cost := CostLines(q, deadline, old(world));
        && world == cost.world && added == |cost.rows|
        && state.evidence == old(state.evidence) + cost.rows && state.coverage == old(state.coverage)
    {
      added := 0;
      if q.cost == Account {
        var cost := ReadRetrying("actual_cost", COST_TIMEOUT, deadline);
        if cost.Got? {
          state.evidence := state.evidence + Tagged(cost.ids, "");
          added := |cost.ids|;
        }
      }
    }

    method RetrieveOptional(state: DecisionState, q: Query, deadline: nat) returns (added: nat)
      requires q.script == script
      modifies this, state
      ensures
        var x := Optional(q, deadline, old(world));
        && world == x.world && added == |x.rows|
        && state.evidence == old(state.evidence) + x.rows && state.coverage == old(state.coverage)
    {
      added := 0;
      if q.extendedEnabled {
        AddedIsAppended(script, q.specs, deadline, NothingExtended(world));
        var x := RetrieveExtended(state, q.specs, deadline);
        added := x.added;
      }
    }

    /** Everything after the project record. */
    method RetrieveRest(state: DecisionState, q: Query, rows: seq<Evidence>, deadline: nat) returns (complete: bool)
      requires q.script == script
      modifies this, state
      ensures
        var result := AfterProject(q, rows, deadline, old(world));
        && world == result.world && complete == (result.costStatus != CostSkipped)
        && state.evidence == old(state.evidence) + result.contribution.appended
        && state.coverage == old(state.coverage)[OdooSource := result.contribution.entry]
    {
      state.evidence := state.evidence + rows;
      var added := |rows|;
      if q.cost == BadAccount {
        state.Record(OdooSource, q.enabled, true, ConnectorError, added);
        return false;
      }
      ghost var cost := CostLines(q, deadline, world);
      var costAdded := RetrieveCost(state, q, deadline);
      ghost var x := Optional(q, deadline, world);
      var optionalAdded := RetrieveOptional(state, q, deadline);
      assert state.evidence == old(state.evidence) + (rows + cost.rows + x.rows);
      added := added + costAdded + optionalAdded;
      state.Record(OdooSource, q.enabled, true, if added > 0 then Ok else ZeroNoMatch, added);
      complete := true;
    }

    method Run(state: DecisionState, q: Query)
      requires q.script == script
      modifies this, state
      ensures
        var result := Node(q, old(world));
        && world == result.world
        && state.evidence == old(state.evidence) + result.contribution.appended
        && state.coverage == old(state.coverage)[OdooSource := result.contribution.entry]
    {
      if q.denied {
        state.Record(OdooSource, q.enabled, false, RbacDenied, 0);
        return;
      }
      var deadline := world.clock + NODE_BUDGET;
      var project := ReadRetrying("project_identity", IDENTITY_TIMEOUT, deadline);
      if project.Got? {
        var complete := RetrieveRest(state, q, Tagged(project.ids, ""), deadline);
        if complete {
          world := Indexed(q, world);
        }
      } else {
        state.Record(OdooSource, q.enabled, true, if project.TimedOut? then TimedOutStatus else ConnectorError, 0);
      }
    }
  }
}
