/**
  The review life of one report (apps/edr/app.py, apps/edr/graph/node_17_publish.py): approval,
  rejection, revision, cancellation, the admin overrides, publication and download. Each handler
  is one atomic step.
*/
module Review {
  import opened Wrappers

  datatype ReviewState = Staging | Approved | Rejected | RevisionRequested | Cancelled | Final
  datatype Gate = GatePassed | GateNeedsReview | GateFailed

  /** What the handlers read off the caller's claims. */
  datatype Actor = Actor(userHash: string, canReview: bool, isAdmin: bool, mayReadAll: bool)

  /** The label stored in a decision row; rejections and revisions are stored under `Approve` too. */
  datatype Label = LabelApprove | LabelOverride | LabelCancelled
  datatype Decision = Decision(tag: Label, who: string)

  /** The endpoint calls that change the review state. */
  datatype Kind = Approve | Reject | RequestRevision | Cancel | OverrideApprove | OverrideReject
  datatype Call = Call(kind: Kind, who: string)

  /** Which of the publication's three store operations succeed. */
  datatype Outage = Outage(readable: bool, logWritable: bool, stateWritable: bool)

  /** One report: its audit row, its decision rows, the approval log, and the history of accepted calls. */
  datatype Report = Report(
    state: ReviewState,
    gate: Gate,
    requiresApproval: bool,
    requester: string,
    decisions: seq<Decision>,
    approvalLog: Option<string>,
    history: seq<Call>)

  datatype ExternalState = Reviewed(state: ReviewState) | InStaging | NeedsReview | GateBlocked

  function ExternalStateOf(r: Report): ExternalState {
    if r.state != Staging then Reviewed(r.state)
    else if r.gate == GateFailed then GateBlocked
    else if r.gate == GateNeedsReview then NeedsReview
    else InStaging
  }

  // ---------------------------------------------------------------------------------------------
  // Reference definition of the handlers
  // ---------------------------------------------------------------------------------------------

  datatype Op =
    | DoApprove(actor: Actor, outage: Outage)
    | DoReject(actor: Actor)
    | DoRequestRevision(actor: Actor)
    | DoCancel(actor: Actor, identityChecked: bool)
    | DoOverrideApprove(actor: Actor, outage: Outage)
    | DoOverrideReject(actor: Actor)
    | DoPublish(outage: Outage)  // the workflow's own publish node

  datatype Response = Accepted | Refused(code: nat)

  function LabelOf(k: Kind): Label {
    match k
    case Cancel => LabelCancelled
    case OverrideApprove => LabelOverride
    case OverrideReject => LabelOverride
    case _ => LabelApprove
  }

  /** What the handler answers, before it changes anything. */
  function Answer(r: Report, op: Op): Response {
    match op
    case DoApprove(a, _) =>
      if !a.canReview then Refused(403) else if r.state in {Final, Rejected} then Refused(409) else Accepted
    case DoReject(a) =>
      if !a.canReview then Refused(403) else if r.state == Final then Refused(409) else Accepted
    case DoRequestRevision(a) =>
      if !a.canReview then Refused(403) else if r.state == Final then Refused(409) else Accepted
    case DoCancel(a, identityChecked) =>
      if identityChecked && a.userHash == "" then Refused(401)
      else if identityChecked && a.userHash != r.requester then Refused(403)
      else if r.state in {Final, Rejected, Cancelled} then Refused(409)
      else Accepted
    case DoOverrideApprove(a, _) => OverrideAnswer(r, a)
    case DoOverrideReject(a) => OverrideAnswer(r, a)
    case DoPublish(_) => Accepted
  }

  function OverrideAnswer(r: Report, a: Actor): Response {
    if !a.isAdmin || a.userHash == r.requester then Refused(403)
    else if ExternalStateOf(r) in {InStaging, NeedsReview} then Accepted
    else Refused(409)
  }

  function Decided(r: Report, kind: Kind, who: string, state: ReviewState): Report {
    r.(decisions := r.decisions + [Decision(LabelOf(kind), who)],
       history := r.history + [Call(kind, who)],
       state := state)
  }

  /** The newest decision row labelled as an approval. */
  function LatestApproval(decisions: seq<Decision>): Option<string> {
    if decisions == [] then None
    else if decisions[|decisions| - 1].tag in {LabelApprove, LabelOverride} then Some(decisions[|decisions| - 1].who)
    else LatestApproval(decisions[..|decisions| - 1])
  }

  function Publish(r: Report, outage: Outage): Report {
    if !outage.readable || r.state !in {Approved, Final} then r
    else
      r.(approvalLog := if outage.logWritable && LatestApproval(r.decisions).Some?
                        then LatestApproval(r.decisions) else r.approvalLog,
         state := if outage.stateWritable then Final else r.state)
  }

  function Canceller(r: Report, a: Actor): string {
    if a.userHash != "" then a.userHash else r.requester
  }

  function Step(r: Report, op: Op): Report {
    if Answer(r, op) != Accepted then r
    else
      match op
      case DoApprove(a, outage) => Publish(Decided(r, Approve, a.userHash, Approved), outage)
      case DoReject(a) => Decided(r, Reject, a.userHash, Rejected)
      case DoRequestRevision(a) => Decided(r, RequestRevision, a.userHash, RevisionRequested)
      case DoCancel(a, _) => Decided(r, Cancel, Canceller(r, a), Cancelled)
      case DoOverrideApprove(a, outage) => Publish(Decided(r, OverrideApprove, a.userHash, Approved), outage)
      case DoOverrideReject(a) => Decided(r, OverrideReject, a.userHash, Rejected)
      case DoPublish(outage) => Publish(r, outage)
  }

  datatype Prefix = StagingPrefix | FinalPrefix

  /** The shared download logic, up to reading the artifact. */
  function Download(r: Report, prefix: Prefix, actor: Actor, identityChecked: bool): Response {
    if r.gate == GateFailed then Refused(403)
    else if identityChecked && actor.userHash == "" then Refused(401)
    else if identityChecked && actor.userHash != r.requester && !actor.mayReadAll then Refused(403)
    else if prefix == StagingPrefix && r.requiresApproval && r.state !in {Approved, Final} then Refused(403)
    else if prefix == FinalPrefix && r.state != Final then Refused(403)
    else Accepted
  }

  // ---------------------------------------------------------------------------------------------
  // The stored report, changed by the handlers
  // ---------------------------------------------------------------------------------------------

  class StoredReport {
    var state: ReviewState
    const gate: Gate
    const requiresApproval: bool
    const requester: string
    var decisions: seq<Decision>
    var approvalLog: Option<string>
    ghost var history: seq<Call>

    ghost function View(): Report
      reads this
    {
      Report(state, gate, requiresApproval, requester, decisions, approvalLog, history)
    }

    constructor (gate: Gate, requiresApproval: bool, requester: string)
      ensures View() == Saved(gate, requiresApproval, requester)
    {
      state, this.gate, this.requiresApproval, this.requester := Staging, gate, requiresApproval, requester;
      decisions, approvalLog, history := [], None, [];
    }

    method InsertDecision(kind: Kind, who: string)
      modifies this`decisions, this`history
      ensures decisions == old(decisions) + [Decision(LabelOf(kind), who)]
                  && history == old(history) + [Call(kind, who)]
    {
      decisions := decisions + [Decision(LabelOf(kind), who)];
      history := history + [Call(kind, who)];
    }

    /** node_17_publish: copy to final, write the approval log, and mark the report final. */
    method PublishNode(outage: Outage)
      modifies this
      ensures View() == Publish(old(View()), outage)
    {
      if !outage.readable || state !in {Approved, Final} {
        return;
      }
      var latest: Option<string> := None;
      for i := 0 to |decisions|
        invariant latest == LatestApproval(decisions[..i])
        invariant decisions == old(decisions)
      {
        assert decisions[..i + 1][..i] == decisions[..i];
        if decisions[i].tag in {LabelApprove, LabelOverride} {
          latest := Some(decisions[i].who);
        }
      }
      assert decisions[..|decisions|] == decisions;
      if latest.Some? && outage.logWritable {
        approvalLog := latest;
      }
      if outage.stateWritable {
        state := Final;
      }
    }

    method ApproveReport(actor: Actor, outage: Outage) returns (response: Response)
      modifies this
      ensures response == Answer(old(View()), DoApprove(actor, outage))
      ensures View() == Step(old(View()), DoApprove(actor, outage))
    {
      if !actor.canReview {
        return Refused(403);
      }
      if state == Final || state == Rejected {
        return Refused(409);
      }
      InsertDecision(Approve, actor.userHash);
      state := Approved;
      PublishNode(outage);
      response := Accepted;
    }

    method RejectReport(actor: Actor) returns (response: Response)
      modifies this
      ensures response == Answer(old(View()), DoReject(actor))
      ensures View() == Step(old(View()), DoReject(actor))
    {
      if !actor.canReview {
        return Refused(403);
      }
      if state == Final {
        return Refused(409);
      }
      InsertDecision(Reject, actor.userHash);
      state := Rejected;
      response := Accepted;
    }

    method RequestRevisionOf(actor: Actor) returns (response: Response)
      modifies this
      ensures response == Answer(old(View()), DoRequestRevision(actor))
      ensures View() == Step(old(View()), DoRequestRevision(actor))
    {
      if !actor.canReview {
        return Refused(403);
      }
      if state == Final {
        return Refused(409);
      }
      InsertDecision(RequestRevision, actor.userHash);
      state := RevisionRequested;
      response := Accepted;
    }

    method CancelReport(actor: Actor, identityChecked: bool) returns (response: Response)
      modifies this
      ensures response == Answer(old(View()), DoCancel(actor, identityChecked))
      ensures View() == Step(old(View()), DoCancel(actor, identityChecked))
    {
      if identityChecked {
        if actor.userHash == "" {
          return Refused(401);
        }
        if actor.userHash != requester {
          return Refused(403);
        }
      }
      if state == Final || state == Rejected || state == Cancelled {
        return Refused(409);
      }
      InsertDecision(Cancel, if actor.userHash != "" then actor.userHash else requester);
      state := Cancelled;
      response := Accepted;
    }

    method AdminOverride(actor: Actor, approve: bool, outage: Outage) returns (response: Response)
      modifies this
      ensures
        var op := if approve then DoOverrideApprove(actor, outage) else DoOverrideReject(actor);
        response == Answer(old(View()), op) && View() == Step(old(View()), op)
    {
      if !actor.isAdmin {
        return Refused(403);
      }
      if actor.userHash == requester {
        return Refused(403);
      }
      if state != Staging || gate == GateFailed {
        return Refused(409);
      }
      if approve {
        InsertDecision(OverrideApprove, actor.userHash);
        state := Approved;
        PublishNode(outage);
      } else {
        InsertDecision(OverrideReject, actor.userHash);
        state := Rejected;
      }
      response := Accepted;
    }
  }

  // ---------------------------------------------------------------------------------------------
  // All runs
  // ---------------------------------------------------------------------------------------------

  /** A report as the workflow saves it. */
  function Saved(gate: Gate, requiresApproval: bool, requester: string): Report {
    Report(Staging, gate, requiresApproval, requester, [], None, [])
  }

  function After(r: Report, ops: seq<Op>): Report
    decreases |ops|
  {
    if ops == [] then r else Step(After(r, ops[..|ops| - 1]), ops[|ops| - 1])
  }

  predicate IsApproval(c: Call) {
    c.kind == Approve || c.kind == OverrideApprove
  }

  /** What every reachable report satisfies. */
  ghost predicate Consistent(r: Report) {
    // approved or published exactly when the latest accepted call was an approval
    && (r.state in {Approved, Final} <==> r.history != [] && IsApproval(r.history[|r.history| - 1]))
    && (r.state == Staging <==> r.history == [])
    // one decision row per accepted call, in order, by the same person
    && |r.decisions| == |r.history|
    && (forall i :: 0 <= i < |r.history| ==> r.decisions[i] == Decision(LabelOf(r.history[i].kind), r.history[i].who))
    // the approval log never credits anyone who did not approve
    && (r.approvalLog.Some? ==>
          exists i :: 0 <= i < |r.history| && IsApproval(r.history[i]) && r.history[i].who == r.approvalLog.value)
  }

  lemma PublishKeepsConsistent(r: Report, outage: Outage)
    requires Consistent(r)
    ensures Consistent(Publish(r, outage))
  {
    if r.state in {Approved, Final} {
      var last := |r.history| - 1;
      assert LatestApproval(r.decisions) == Some(r.history[last].who);
    }
  }

  lemma DecidedKeepsConsistent(r: Report, kind: Kind, who: string, state: ReviewState)
    requires Consistent(r)
    requires state != Staging && (state in {Approved, Final} <==> kind in {Approve, OverrideApprove})
    ensures Consistent(Decided(r, kind, who, state))
  {
    var d := Decided(r, kind, who, state);
    if r.approvalLog.Some? {
      var i :| 0 <= i < |r.history| && IsApproval(r.history[i]) && r.history[i].who == r.approvalLog.value;
      assert d.history[i] == r.history[i];
    }
  }

  lemma StepKeepsConsistent(r: Report, op: Op)
    requires Consistent(r)
    ensures Consistent(Step(r, op))
  {
    if Answer(r, op) == Accepted {
      match op
      case DoApprove(a, outage) =>
        DecidedKeepsConsistent(r, Approve, a.userHash, Approved);
        PublishKeepsConsistent(Decided(r, Approve, a.userHash, Approved), outage);
      case DoReject(a) => DecidedKeepsConsistent(r, Reject, a.userHash, Rejected);
      case DoRequestRevision(a) => DecidedKeepsConsistent(r, RequestRevision, a.userHash, RevisionRequested);
      case DoCancel(a, _) => DecidedKeepsConsistent(r, Cancel, Canceller(r, a), Cancelled);
      case DoOverrideApprove(a, outage) =>
        DecidedKeepsConsistent(r, OverrideApprove, a.userHash, Approved);
        PublishKeepsConsistent(Decided(r, OverrideApprove, a.userHash, Approved), outage);
      case DoOverrideReject(a) => DecidedKeepsConsistent(r, OverrideReject, a.userHash, Rejected);
      case DoPublish(outage) => PublishKeepsConsistent(r, outage);
    }
  }

  /**
    Over every run: a report is approved or final exactly when the latest accepted call was an
    approval, the decision rows mirror the accepted calls one for one, and the approval log only
    ever names someone who approved, although rejections are stored under the same label.
  */
  lemma {:induction false} AlwaysConsistent(gate: Gate, requiresApproval: bool, requester: string, ops: seq<Op>)
    ensures Consistent(After(Saved(gate, requiresApproval, requester), ops))
    decreases |ops|
  {
    if ops != [] {
      AlwaysConsistent(gate, requiresApproval, requester, ops[..|ops| - 1]);
      StepKeepsConsistent(After(Saved(gate, requiresApproval, requester), ops[..|ops| - 1]), ops[|ops| - 1]);
    }
  }

  /** Gate, approval requirement and requester never change, and accepted calls are never forgotten. */
  lemma {:induction false} FixedOverRuns(r: Report, ops: seq<Op>)
    ensures
      var s := After(r, ops);
      s.gate == r.gate && s.requiresApproval == r.requiresApproval && s.requester == r.requester
          && r.history <= s.history
    decreases |ops|
  {
    if ops != [] {
      FixedOverRuns(r, ops[..|ops| - 1]);
    }
  }

  /**
    Download safety over every run: nothing is downloadable behind a failed gate, and an
    approval-required report is downloadable only while its latest accepted call is an approval.
  */
  lemma DownloadOnlyAfterApproval(gate: Gate, requiresApproval: bool, requester: string, ops: seq<Op>,
                                  prefix: Prefix, actor: Actor, identityChecked: bool)
    ensures
      var r := After(Saved(gate, requiresApproval, requester), ops);
      Download(r, prefix, actor, identityChecked) == Accepted ==>
        && gate != GateFailed
        && (requiresApproval || prefix == FinalPrefix ==> r.history != [] && IsApproval(r.history[|r.history| - 1]))
  {
    AlwaysConsistent(gate, requiresApproval, requester, ops);
    FixedOverRuns(Saved(gate, requiresApproval, requester), ops);
  }

  /** A final report stays as it is; publishing it again can at most credit its newest approval. */
  lemma {:induction false} FinalStays(r: Report, ops: seq<Op>)
    requires r.state == Final
    ensures
      var s := After(r, ops);
      && s == r.(approvalLog := s.approvalLog)
      && (s.approvalLog == r.approvalLog || s.approvalLog == LatestApproval(r.decisions))
    decreases |ops|
  {
    if ops != [] {
      FinalStays(r, ops[..|ops| - 1]);
    }
  }

  /**
    `final` is the only state that nothing leaves. In particular `rejected` and `cancelled`, which
    the cancel handler calls terminal, both still lead to `final`.
  */
  lemma OnlyFinalIsAbsorbing(r: Report)
    ensures r.state == Final <==> forall ops: seq<Op> :: After(r, ops).state == r.state
  {
    if r.state == Final {
      forall ops: seq<Op>
        ensures After(r, ops).state == r.state
      {
        FinalStays(r, ops);
      }
    } else {
      var reviewer := Actor("reviewer", true, false, false);
      var ops := WayToFinal(r, reviewer);
      assert After(r, ops).state != r.state;
    }
  }

  /** From every state a reviewer can bring the report to `final`, whatever its quality gate says. */
  lemma WayToFinal(r: Report, reviewer: Actor) returns (ops: seq<Op>)
    requires reviewer.canReview
    ensures After(r, ops).state == Final && |ops| <= 2
  {
    var approve := DoApprove(reviewer, Outage(true, true, true));
    if r.state == Final {
      ops := [];
    } else if r.state == Rejected {
      var revise := DoRequestRevision(reviewer);
      ops := [revise, approve];
      assert ops[..1] == [revise] && [revise][..0] == [];
      assert After(r, [revise]) == Step(r, revise);
      assert After(r, ops) == Step(Step(r, revise), approve);
    } else {
      ops := [approve];
      assert ops[..0] == [];
      assert After(r, ops) == Step(r, approve);
    }
  }

  /** The admin override, unlike the reviewers' approval, respects the gate and forbids self-approval. */
  lemma OverrideRespectsGate(r: Report, actor: Actor, outage: Outage)
    ensures Answer(r, DoOverrideApprove(actor, outage)) == Accepted <==>
              actor.isAdmin && actor.userHash != r.requester && r.state == Staging && r.gate != GateFailed
  {}
}
