/** The SharePoint and email retrieval nodes (apps/edr/graph/node_05_sharepoint.py, node_07_email.py). */
module RetrievalNodes {
  import opened Wrappers
  import opened Coverage

  /** A document or message a connector returned, identified by its evidence id. */
  datatype Record = Record(id: string)

  datatype Reply = Found(records: seq<Record>) | Fault

  /** The permissions of the caller's role; `None` when the state carries no role. */
  datatype Perms = Perms(sharepoint: bool, ownMailbox: bool)

  function Ids(records: seq<Record>): set<string> {
    set r | r in records :: r.id
  }

  function Matching(records: seq<Record>, keep: Record -> bool): seq<Record> {
    if records == [] then [] else
    Matching(records[..|records| - 1], keep) + (if keep(records[|records| - 1]) then [records[|records| - 1]] else [])
  }

  /** For financial reports the screen works by id: a record stays if any record with its id passes. */
  function Screened(financial: bool, keep: Record -> bool, records: seq<Record>): seq<Record> {
    if !financial then records
    else
      var kept := Ids(Matching(records, keep));
      Matching(records, (r: Record) => r.id in kept)
  }

  function Rows(records: seq<Record>, source: Source): (rows: seq<Evidence>)
    ensures |rows| == |records|
    ensures forall i :: 0 <= i < |rows| ==> rows[i] == Evidence(records[i].id, source, "")
  {
    seq(|records|, i requires 0 <= i < |records| => Evidence(records[i].id, source, ""))
  }

  function Attempted(enabled: bool, records: seq<Record>, source: Source): Contribution {
    Contribution(Rows(records, source), Entry(enabled, true, if records != [] then Ok else ZeroNoMatch, |records|))
  }

  function Failed(enabled: bool): Contribution {
    Contribution([], Entry(enabled, true, ConnectorError, 0))
  }

  function Skipped(enabled: bool, status: Status): Contribution {
    Contribution([], Entry(enabled, false, status, 0))
  }

  // ---------------------------------------------------------------------------------------------
  // SharePoint
  // ---------------------------------------------------------------------------------------------

  /** `search(i)` is the connector's reply to the i-th term. */
  datatype SharePointQuery = SharePointQuery(
    enabled: bool, perms: Option<Perms>, financial: bool, keep: Record -> bool, terms: seq<string>,
    search: nat -> Reply)
  {
    /** How many of the terms may be tried. */
    function Limit(): nat {
      var attempts := if financial then 6 else 3;
      if |terms| < attempts then |terms| else attempts
    }

    function ScreenedReply(i: nat): seq<Record> {
      match search(i)
      case Found(records) => Screened(financial, keep, records)
      case Fault => []
    }

    predicate Denied() { perms.Some? && !perms.value.sharepoint }
  }

  datatype TermRun = TermRun(tried: nat, evidence: seq<Record>, failed: bool)

  function TryTerms(q: SharePointQuery, i: nat): TermRun
    decreases q.Limit() - i
  {
    if i >= q.Limit() then TermRun(i, [], false)
    else if q.search(i) == Fault then TermRun(i + 1, [], true)
    else if q.ScreenedReply(i) != [] then TermRun(i + 1, q.ScreenedReply(i), false)
    else TryTerms(q, i + 1)
  }

  function SharePoint(q: SharePointQuery): Contribution {
    if q.Denied() then Skipped(q.enabled, RbacDenied)
    else
      var run := TryTerms(q, 0);
      if run.failed then Failed(q.enabled) else Attempted(q.enabled, run.evidence, SharePointSource)
  }

  method RunSharePoint(state: DecisionState, q: SharePointQuery) returns (tried: nat)
    modifies state
    ensures state.evidence == old(state.evidence) + SharePoint(q).appended
    ensures state.coverage == old(state.coverage)[SharePointSource := SharePoint(q).entry]
    ensures tried == if q.Denied() then 0 else TryTerms(q, 0).tried
  {
    tried := 0;
    if q.perms.Some? && !q.perms.value.sharepoint {
      state.Record(SharePointSource, q.enabled, false, RbacDenied, 0);
      return;
    }
    var evidence: seq<Record> := [];
    while tried < q.Limit()
      invariant tried <= q.Limit() && evidence == []
      invariant TryTerms(q, 0) == TryTerms(q, tried)
      invariant state.evidence == old(state.evidence) && state.coverage == old(state.coverage)
    {
      var reply := q.search(tried);
      tried := tried + 1;
      if reply.Fault? {
        state.Record(SharePointSource, q.enabled, true, ConnectorError, 0);
        return;
      }
      evidence := Screened(q.financial, q.keep, reply.records);
      if evidence != [] {
        break;
      }
    }
    state.evidence := state.evidence + Rows(evidence, SharePointSource);
    state.Record(SharePointSource, q.enabled, true, if evidence != [] then Ok else ZeroNoMatch, |evidence|);
  }

  lemma {:induction false} TermsTriedInOrder(q: SharePointQuery, i: nat)
    requires i <= q.Limit()
    ensures
      var run := TryTerms(q, i);
      && i <= run.tried <= q.Limit()
      && (forall j :: i <= j < run.tried - 1 ==> q.search(j).Found? && q.ScreenedReply(j) == [])
      && (run.failed ==> run.tried > i && q.search(run.tried - 1) == Fault && run.evidence == [])
      && (!run.failed && run.evidence != [] ==> run.tried > i && run.evidence == q.ScreenedReply(run.tried - 1))
      && (!run.failed && run.evidence == [] ==>
            run.tried == q.Limit() && forall j :: i <= j < q.Limit() ==> q.search(j).Found? && q.ScreenedReply(j) == [])
    decreases q.Limit() - i
  {
    if i < q.Limit() && q.search(i) != Fault && q.ScreenedReply(i) == [] {
      TermsTriedInOrder(q, i + 1);
    }
  }

  /**
    The SharePoint node: terms are tried in order, at most three (six for financial reports), up to
    the first that fails or leaves something after screening; what that term left is what is
    appended and recorded, and nothing is appended on any other path.
  */
  lemma SharePointIsAccounted(q: SharePointQuery)
    ensures Accounted(SharePoint(q), SharePointSource, q.enabled)
    ensures
      var run := TryTerms(q, 0);
      !q.Denied() ==>
        && run.tried <= (if q.financial then 6 else 3)
        && (SharePoint(q).entry.status == ConnectorError <==> run.tried > 0 && q.search(run.tried - 1) == Fault)
        && (SharePoint(q).entry.status == Ok ==>
              run.tried > 0 &&
              SharePoint(q).appended == Rows(q.ScreenedReply(run.tried - 1), SharePointSource))
        && (SharePoint(q).entry.status == ZeroNoMatch <==>
              forall j :: 0 <= j < q.Limit() ==> q.search(j).Found? && q.ScreenedReply(j) == [])
  {
    TermsTriedInOrder(q, 0);
  }

  // ---------------------------------------------------------------------------------------------
  // Email
  // ---------------------------------------------------------------------------------------------

  datatype EmailQuery = EmailQuery(
    enabled: bool, perms: Option<Perms>, financial: bool, keep: Record -> bool,
    groupMapped: bool, groupMailEnabled: bool,
    allowed: seq<string>, caller: string,
    groupReply: Reply, mailboxReply: Reply)
  {
    predicate UsesGroup() { enabled && groupMapped && groupMailEnabled }
  }

  function ReplyContribution(q: EmailQuery, reply: Reply): Contribution {
    match reply
    case Fault => Failed(q.enabled)
    case Found(records) => Attempted(q.enabled, Screened(q.financial, q.keep, records), EmailSource)
  }

  function Email(q: EmailQuery): Contribution {
    if q.UsesGroup() then
      if q.perms.Some? && !q.perms.value.sharepoint then Skipped(q.enabled, RbacDenied)
      else ReplyContribution(q, q.groupReply)
    else if q.perms.Some? && !q.perms.value.ownMailbox then Skipped(q.enabled, RbacDenied)
    else if q.allowed == [] then Skipped(q.enabled, if q.enabled then Blocked else NotEnabled)
    else if q.caller !in q.allowed then Skipped(q.enabled, RbacDenied)
    else ReplyContribution(q, q.mailboxReply)
  }

  method RunEmail(state: DecisionState, q: EmailQuery)
    modifies state
    ensures state.evidence == old(state.evidence) + Email(q).appended
    ensures state.coverage == old(state.coverage)[EmailSource := Email(q).entry]
  {
    var reply: Reply;
    if q.enabled && q.groupMapped && q.groupMailEnabled {
      if q.perms.Some? && !q.perms.value.sharepoint {
        state.Record(EmailSource, q.enabled, false, RbacDenied, 0);
        return;
      }
      reply := q.groupReply;
    } else {
      if q.perms.Some? && !q.perms.value.ownMailbox {
        state.Record(EmailSource, q.enabled, false, RbacDenied, 0);
        return;
      }
      if q.allowed == [] {
        state.Record(EmailSource, q.enabled, false, if q.enabled then Blocked else NotEnabled, 0);
        return;
      }
      if q.caller !in q.allowed {
        state.Record(EmailSource, q.enabled, false, RbacDenied, 0);
        return;
      }
      reply := q.mailboxReply;
    }
    if reply.Fault? {
      state.Record(EmailSource, q.enabled, true, ConnectorError, 0);
      return;
    }
    var evidence := Screened(q.financial, q.keep, reply.records);
    state.evidence := state.evidence + Rows(evidence, EmailSource);
    state.Record(EmailSource, q.enabled, true, if evidence != [] then Ok else ZeroNoMatch, |evidence|);
  }

  /**
    The email node on every path: the record counts what was appended; the caller's own mailbox is
    read only for an allow-listed caller; and an enabled source is attempted, denied or blocked.
  */
  lemma EmailIsAccounted(q: EmailQuery)
    ensures Accounted(Email(q), EmailSource, q.enabled)
    ensures Email(q).appended != [] && !q.UsesGroup() ==>
                q.caller in q.allowed && (q.perms.Some? ==> q.perms.value.ownMailbox)
    ensures Email(q).entry.status == NotEnabled ==> !q.enabled
  {}

  // ---------------------------------------------------------------------------------------------
  // The financial screen
  // ---------------------------------------------------------------------------------------------

  lemma {:induction false} MatchingMeans(records: seq<Record>, keep: Record -> bool)
    ensures forall r :: r in Matching(records, keep) <==> r in records && keep(r)
    ensures |Matching(records, keep)| <= |records|
  {
    if records != [] {
      MatchingMeans(records[..|records| - 1], keep);
      assert records == records[..|records| - 1] + [records[|records| - 1]];
    }
  }

  /** The screen keeps exactly the records that share an id with one that passes the policy. */
  lemma ScreenWorksById(keep: Record -> bool, records: seq<Record>)
    ensures forall r :: r in Screened(true, keep, records) <==>
              r in records && exists p :: p in records && keep(p) && p.id == r.id
  {
    MatchingMeans(records, keep);
    var kept := Ids(Matching(records, keep));
    MatchingMeans(records, (r: Record) => r.id in kept);
  }
}
