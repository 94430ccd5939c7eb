/** Per-source coverage records and their summary (apps/edr/graph/coverage.py). */
module Coverage {
  datatype Source = OdooSource | SharePointSource | EmailSource

  const PROJECT_SOURCES: seq<Source> := [OdooSource, SharePointSource, EmailSource]

  datatype Status = Ok | ZeroNoMatch | ConnectorError | TimedOutStatus | Blocked | RbacDenied | NotEnabled

  datatype Entry = Entry(enabled: bool, attempted: bool, status: Status, evidenceCount: nat)

  datatype Evidence = Evidence(id: string, source: Source, tag: string)

  const UNRECORDED := Entry(false, false, NotEnabled, 0)

  datatype Completeness = Full | PartialEvidence | NoneEnabled

  datatype Summary = Summary(
    completeness: Completeness,
    allEnabledAttempted: bool,
    connectorErrors: seq<Source>,
    zeroEvidence: seq<Source>,
    notAttempted: seq<Source>)

  function EntryOf(cov: map<Source, Entry>, s: Source): Entry {
    if s in cov then cov[s] else UNRECORDED
  }

  function Where(sources: seq<Source>, p: Source -> bool): (r: seq<Source>)
    ensures forall s :: s in r <==> s in sources && p(s)
  {
    if sources == [] then []
    else if p(sources[0]) then [sources[0]] + Where(sources[1..], p)
    else Where(sources[1..], p)
  }

  function Summarise(cov: map<Source, Entry>): Summary {
    var enabled := Where(PROJECT_SOURCES, s => EntryOf(cov, s).enabled);
    var zero := Where(enabled, s => EntryOf(cov, s).evidenceCount == 0);
    var skipped := Where(enabled, s => !EntryOf(cov, s).attempted && EntryOf(cov, s).status !in {Blocked, RbacDenied});
    Summary(
      if enabled == [] then NoneEnabled else if zero == [] then Full else PartialEvidence,
      skipped == [],
      Where(enabled, s => EntryOf(cov, s).status == ConnectorError),
      zero,
      skipped)
  }

  /** The state the retrieval nodes share. */
  class DecisionState {
    var evidence: seq<Evidence>
    var coverage: map<Source, Entry>

    constructor ()
      ensures evidence == [] && coverage == map[]
    {
      evidence, coverage := [], map[];
    }

    method Record(source: Source, enabled: bool, attempted: bool, status: Status, evidenceCount: nat)
      modifies this`coverage
      ensures coverage == old(coverage)[source := Entry(enabled, attempted, status, evidenceCount)]
    {
      coverage := coverage[source := Entry(enabled, attempted, status, evidenceCount)];
    }
  }

  /** What one retrieval node contributes: the evidence it appends and the record it leaves. */
  datatype Contribution = Contribution(appended: seq<Evidence>, entry: Entry)

  /** A contribution that counts what it appended and never skips an enabled source silently. */
  ghost predicate Accounted(c: Contribution, source: Source, enabled: bool) {
    && c.entry.enabled == enabled
    && c.entry.evidenceCount == |c.appended|
    && (forall i :: 0 <= i < |c.appended| ==> c.appended[i].source == source)
    && (enabled ==> c.entry.attempted || c.entry.status in {Blocked, RbacDenied})
    && (c.entry.status == Ok ==> c.appended != [])
    && (c.entry.status in {ZeroNoMatch, Blocked, RbacDenied, NotEnabled} ==> c.appended == [])
  }

  function CountFrom(evidence: seq<Evidence>, source: Source): nat {
    if evidence == [] then 0
    else CountFrom(evidence[..|evidence| - 1], source) + (if evidence[|evidence| - 1].source == source then 1 else 0)
  }

  lemma {:induction false} CountAppended(evidence: seq<Evidence>, more: seq<Evidence>, source: Source, s: Source)
    requires forall i :: 0 <= i < |more| ==> more[i].source == source
    ensures CountFrom(evidence + more, s) == CountFrom(evidence, s) + (if s == source then |more| else 0)
    decreases |more|
  {
    if more == [] {
      assert evidence + more == evidence;
    } else {
      var n := |more| - 1;
      CountAppended(evidence, more[..n], source, s);
      assert (evidence + more)[..|evidence| + n] == evidence + more[..n];
    }
  }

  lemma EverySourceListed(s: Source)
    ensures s in PROJECT_SOURCES
  {
    match s
    case OdooSource => assert PROJECT_SOURCES[0] == s;
    case SharePointSource => assert PROJECT_SOURCES[1] == s;
    case EmailSource => assert PROJECT_SOURCES[2] == s;
  }

  lemma CountThree(odoo: seq<Evidence>, sharepoint: seq<Evidence>, email: seq<Evidence>, s: Source)
    requires forall i :: 0 <= i < |odoo| ==> odoo[i].source == OdooSource
    requires forall i :: 0 <= i < |sharepoint| ==> sharepoint[i].source == SharePointSource
    requires forall i :: 0 <= i < |email| ==> email[i].source == EmailSource
    ensures CountFrom(sharepoint + email + odoo, s)
         == match s case OdooSource => |odoo| case SharePointSource => |sharepoint| case EmailSource => |email|
  {
    assert [] + sharepoint == sharepoint;
    CountAppended([], sharepoint, SharePointSource, s);
    CountAppended(sharepoint, email, EmailSource, s);
    CountAppended(sharepoint + email, odoo, OdooSource, s);
  }

  /** The records of the three nodes. */
  function Recorded(odoo: Contribution, sharepoint: Contribution, email: Contribution): map<Source, Entry> {
    map[OdooSource := odoo.entry, SharePointSource := sharepoint.entry, EmailSource := email.entry]
  }

  /** "Full" for three records: some source enabled, and each enabled one with evidence. */
  lemma FullForThree(o: Entry, sp: Entry, em: Entry)
    ensures
      var cov := map[OdooSource := o, SharePointSource := sp, EmailSource := em];
      Summarise(cov).completeness == Full <==>
        && (o.enabled || sp.enabled || em.enabled)
        && (o.enabled ==> o.evidenceCount > 0) && (sp.enabled ==> sp.evidenceCount > 0)
        && (em.enabled ==> em.evidenceCount > 0)
  {
    var cov := map[OdooSource := o, SharePointSource := sp, EmailSource := em];
    SummaryMeaning(cov);
    assert EntryOf(cov, OdooSource) == o && EntryOf(cov, SharePointSource) == sp && EntryOf(cov, EmailSource) == em;
    assert (exists src :: EntryOf(cov, src).enabled) <==> o.enabled || sp.enabled || em.enabled;
  }

  /**
    Evidence conservation: once the three nodes have run, the evidence the state holds from each
    source is exactly what that source's record claims.
  */
  lemma EvidenceIsConserved(odoo: Contribution, sharepoint: Contribution, email: Contribution,
                            odooOn: bool, sharepointOn: bool, emailOn: bool, src: Source)
    requires Accounted(odoo, OdooSource, odooOn)
    requires Accounted(sharepoint, SharePointSource, sharepointOn)
    requires Accounted(email, EmailSource, emailOn)
    ensures CountFrom(sharepoint.appended + email.appended + odoo.appended, src)
         == EntryOf(Recorded(odoo, sharepoint, email), src).evidenceCount
  {
    CountThree(odoo.appended, sharepoint.appended, email.appended, src);
  }

  /**
    No silent skip: every source has a record, every enabled one was attempted or its skip documented,
    and the summary says "full" exactly when some source is enabled and every enabled one contributed.
  */
  lemma NothingIsSkippedSilently(odoo: Contribution, sharepoint: Contribution, email: Contribution,
                                 odooOn: bool, sharepointOn: bool, emailOn: bool)
    requires Accounted(odoo, OdooSource, odooOn)
    requires Accounted(sharepoint, SharePointSource, sharepointOn)
    requires Accounted(email, EmailSource, emailOn)
    ensures forall src :: src in Recorded(odoo, sharepoint, email)
    ensures Summarise(Recorded(odoo, sharepoint, email)).allEnabledAttempted
    ensures Summarise(Recorded(odoo, sharepoint, email)).completeness == Full <==>
              && (odooOn || sharepointOn || emailOn)
              && (odooOn ==> odoo.appended != []) && (sharepointOn ==> sharepoint.appended != [])
              && (emailOn ==> email.appended != [])
  {
    forall src: Source
      ensures src in Recorded(odoo, sharepoint, email)
    {
      match src case OdooSource => case SharePointSource => case EmailSource =>
    }
    SummaryMeaning(Recorded(odoo, sharepoint, email));
    FullForThree(odoo.entry, sharepoint.entry, email.entry);
  }

  /** The summary's flags and lists, read off the entries. */
  lemma SummaryMeaning(cov: map<Source, Entry>)
    ensures
      var s := Summarise(cov);
      && (s.allEnabledAttempted <==> forall src :: EntryOf(cov, src).enabled ==>
            EntryOf(cov, src).attempted || EntryOf(cov, src).status in {Blocked, RbacDenied})
      && (s.completeness == Full <==>
            && (exists src :: EntryOf(cov, src).enabled)
            && (forall src :: EntryOf(cov, src).enabled ==> EntryOf(cov, src).evidenceCount > 0))
      && (s.completeness == NoneEnabled <==> forall src :: !EntryOf(cov, src).enabled)
      && (forall src ::
            && (src in s.connectorErrors <==> EntryOf(cov, src).enabled && EntryOf(cov, src).status == ConnectorError)
            && (src in s.zeroEvidence <==> EntryOf(cov, src).enabled && EntryOf(cov, src).evidenceCount == 0)
            && (src in s.notAttempted <==> EntryOf(cov, src).enabled && !EntryOf(cov, src).attempted
                                             && EntryOf(cov, src).status !in {Blocked, RbacDenied}))
  {
    forall s: Source
      ensures s in PROJECT_SOURCES
    {
      EverySourceListed(s);
    }
    var enabled := Where(PROJECT_SOURCES, s => EntryOf(cov, s).enabled);
    forall src: Source
      ensures src in enabled <==> EntryOf(cov, src).enabled
    {}
    EmptyMeansNone(enabled);
    var zero := Where(enabled, s => EntryOf(cov, s).evidenceCount == 0);
    EmptyMeansNone(zero);
    var skipped := Where(enabled, s => !EntryOf(cov, s).attempted && EntryOf(cov, s).status !in {Blocked, RbacDenied});
    EmptyMeansNone(skipped);
  }

  lemma EmptyMeansNone(sources: seq<Source>)
    ensures sources == [] <==> forall s :: s !in sources
  {
    if sources != [] { assert sources[0] in sources; }
  }
}
