/** Drafts and packs for which the final report does not cite what it should, or for which there is none. */
module DraftLimits {
  import opened Wrappers
  import opened Answers
  import opened Finance
  import opened Citations
  import opened CitationLaws
  import opened Drafting
  import opened BuiltLaws
  import opened GroundingLaws
  import opened GateLaws
  import opened SummaryLaws

  const PLAIN := (s: string) => s
  const NO_SNAPSHOT := Snapshot(map[], None)

  /** A pack of one document with an ordinary id, for a report that is neither financial nor about salaries. */
  predicate OneDocument(req: Request, id: string) {
    && |req.pack| == 1 && req.pack[0].id == id && |id| > 1 && id != "ev_..." && ',' !in id
    && req.pack[0].sourceType.SharePoint? && req.kind.OtherReport?
  }

  /** A draft with one finding and one root cause, at most, and no sources of its own. */
  function DraftOf(findings: seq<Item>, causes: seq<Item>): Report {
    Report(map[ExecutiveSummary := Items([]), KeyFindings := Items(findings), RootCauses := Items(causes),
               DelayAnalysis := Items([]), ContractualImplications := Items([]), RecommendedActions := Items([])],
           NO_SNAPSHOT, [], EMPTY_ANSWER)
  }

  function DraftWith(raw: RawIds): Report {
    DraftOf([Claim(Genuine, raw)], [])
  }

  lemma DraftSections(findings: seq<Item>, causes: seq<Item>)
    ensures
      var d := DraftOf(findings, causes);
      && AllLists(d)
      && forall s :: d.Claims(s) == match s case KeyFindings => findings case RootCauses => causes case _ => []
  {
    forall s
      ensures s in DraftOf(findings, causes).sections
    {
      match s
      case ExecutiveSummary => case KeyFindings => case RootCauses =>
      case DelayAnalysis => case ContractualImplications => case RecommendedActions =>
    }
  }

  // ---------------------------------------------------------------------------------------------
  // Accepted drafts
  // ---------------------------------------------------------------------------------------------

  /** A claim that validation accepts, with a text. */
  predicate Passes(item: Item, ids: set<string>) {
    item.Claim? && ValidItem(item, map[], ids) && item.wording.Genuine?
  }

  lemma {:induction false} PassingItems(items: seq<Item>, ids: set<string>)
    requires forall i :: 0 <= i < |items| ==> Passes(items[i], ids)
    ensures ItemsVerdict(items, map[], ids) == Valid
  {
    if items != [] { PassingItems(items[..|items| - 1], ids); }
  }

  lemma {:induction false} PassingSections(r: Report, sections: seq<Section>, ids: set<string>)
    requires AllLists(r) && forall s, i :: 0 <= i < |r.Claims(s)| ==> Passes(r.Claims(s)[i], ids)
    ensures SectionsVerdict(r, sections, map[], ids) == Valid
  {
    if sections != [] {
      PassingSections(r, sections[..|sections| - 1], ids);
      PassingItems(r.Claims(sections[|sections| - 1]), ids);
    }
  }

  lemma PassingDraft(findings: seq<Item>, causes: seq<Item>, ids: set<string>)
    requires forall i :: 0 <= i < |findings| ==> Passes(findings[i], ids)
    requires forall i :: 0 <= i < |causes| ==> Passes(causes[i], ids)
    requires findings != [] || causes != []
    ensures VerdictOn(DraftOf(findings, causes), map[], ids) == Valid
  {
    var d := DraftOf(findings, causes);
    DraftSections(findings, causes);
    PassingSections(d, SECTIONS, ids);
    assert HasGenuine(d.Claims(KeyFindings)) || HasGenuine(d.Claims(RootCauses)) by {
      if findings != [] { assert Passes(findings[0], ids) && d.Claims(KeyFindings)[0].wording.Genuine?; }
      if causes != [] { assert Passes(causes[0], ids) && d.Claims(RootCauses)[0].wording.Genuine?; }
    }
  }

  lemma VerdictIgnoresSnapshot(a: Report, b: Report, ids: set<string>)
    requires a.sections == b.sections
    ensures VerdictOn(a, map[], ids) == VerdictOn(b, map[], ids)
  {
    VerdictIgnoresRest(a, b, SECTIONS, map[], ids);
    assert forall s :: a.Claims(s) == b.Claims(s);
  }

  lemma DraftWithIsAccepted(req: Request, id: string, raw: RawIds)
    requires OneDocument(req, id) && Flatten(raw) == [id]
    ensures VerdictOn(DraftWith(raw), map[], IdsOf(req.pack)) == Valid
  {
    assert req.pack[0] in req.pack && id in IdsOf(req.pack);
    PassingDraft([Claim(Genuine, raw)], [], IdsOf(req.pack));
  }

  lemma {:induction false} NothingKept(pack: seq<Evidence>, keep: Evidence -> bool)
    requires forall e :: e in pack ==> !keep(e)
    ensures Filter(pack, keep) == []
  {
    if pack != [] { NothingKept(pack[..|pack| - 1], keep); }
  }

  /** A document brings no Odoo rows, and so no figures. */
  lemma NoRows(req: Request, id: string)
    requires OneDocument(req, id)
    ensures OdooRows(req.pack) == [] && !PackContext(req).hasAmount
  {
    NothingKept(req.pack, (e: Evidence) => e.sourceType.Odoo?);
    assert CostLines([]) == [] && !CostTallyOf([]).hasAmount;
  }

  /** Without sources nothing is renamed: of the sections the summary is all that the corrections may change. */
  lemma SettledWithoutSources(req: Request, r: Report)
    requires req.kind.OtherReport? && r.sources == []
    requires !EnforcementRaises(r.snapshot, PackContext(req), OdooRows(req.pack), IdsOf(req.pack))
    ensures Settled(PLAIN, req, r) == SummaryEnforced(SnapshotEnforced(req, r), req.pack)
  {
    assert Synthetic(PLAIN, r.sources, req.pack) == map[];
  }

  lemma NoSnapshotIsTame(req: Request)
    ensures
      var t := FromOdoo(NO_SNAPSHOT, PackContext(req), IdsOf(req.pack));
      && !FirstPassRaises(NO_SNAPSHOT, PackContext(req), IdsOf(req.pack))
      && !EnforcementRaises(t, PackContext(req), OdooRows(req.pack), IdsOf(req.pack))
  {
    FirstPassStaysTame(NO_SNAPSHOT, PackContext(req), OdooRows(req.pack), IdsOf(req.pack));
    EnforcementStaysTame(FromOdoo(NO_SNAPSHOT, PackContext(req), IdsOf(req.pack)), PackContext(req), OdooRows(req.pack),
                         IdsOf(req.pack));
  }

  /** The final report has the sections of `r` once its summary is filled, if it can be. */
  ghost predicate SectionsOf(final: Option<Report>, filled: Option<Report>) {
    (final.Some? <==> filled.Some?) && (final.Some? ==> final.value.sections == filled.value.sections)
  }

  lemma RunOfDraftWith(req: Request, id: string, raw: RawIds) returns (r: Report)
    requires OneDocument(req, id) && Flatten(raw) == [id]
    ensures r.sections == DraftWith(raw).sections
    ensures SectionsOf(Run(PLAIN, req, Some(DraftWith(raw))), SummaryEnforced(r, req.pack))
  {
    var d := DraftWith(raw);
    DraftWithIsAccepted(req, id, raw);
    DraftOutcome(PLAIN, req, d);
    NoSnapshotIsTame(req);
    PreparedIff(PLAIN, req, d);
    PreparedIs(PLAIN, req, d);
    var prepared := Prepared(PLAIN, req, d).value;
    SettledWithoutSources(req, prepared);
    CorrectedIs(PLAIN, req, prepared);
    r := SnapshotEnforced(req, prepared);
  }

  // ---------------------------------------------------------------------------------------------
  // Bare strings and nested lists
  // ---------------------------------------------------------------------------------------------

  lemma OneCharacterIsNoId(req: Request, id: string)
    requires OneDocument(req, id)
    ensures [id[0]] !in IdsOf(req.pack)
  {}

  lemma SingleBareRefs(e: string)
    ensures RawRefs([Claim(Genuine, Bare(e))]) == Some(Characters(e))
  {
    var items := [Claim(Genuine, Bare(e))];
    assert items[..0] == [] && RawRefs(items[..0]) == Some([]);
    assert [] + Characters(e) == Characters(e);
  }

  /**
    A draft whose only finding cites its evidence as a bare string is accepted, and the summary
    written for it cites the characters of that string.
  */
  lemma BareStringIsQuotedByCharacter(req: Request, id: string)
    requires OneDocument(req, id)
    ensures
      var final := Run(PLAIN, req, Some(DraftWith(Bare(id))));
      && final.Some? && !Grounded(final.value, IdsOf(req.pack))
      && final.value.Claims(ExecutiveSummary) == [Citing(Take(Distinct(Characters(id)), 5))]
  {
    var r := RunOfDraftWith(req, id, Bare(id));
    OneCharacterIsNoId(req, id);
    SummaryFromBare(r, req.pack, id);
    SameClaims(Run(PLAIN, req, Some(DraftWith(Bare(id)))).value, SummaryEnforced(r, req.pack).value, IdsOf(req.pack));
  }

  /** One finding that cites a bare string: the summary quotes its first five distinct characters. */
  lemma SummaryFromBare(r: Report, pack: seq<Evidence>, e: string)
    requires r.sections == DraftWith(Bare(e)).sections && pack != [] && e != ""
    ensures
      var final := SummaryEnforced(r, pack);
      && final.Some? && final.value.Claims(ExecutiveSummary) == [Citing(Take(Distinct(Characters(e)), 5))]
      && ([e[0]] !in IdsOf(pack) ==> !Grounded(final.value, IdsOf(pack)))
  {
    SingleBareRefs(e);
    DistinctStartsWithFirst(Characters(e));
    assert r.Claims(KeyFindings) == [Claim(Genuine, Bare(e))] && r.sections[ExecutiveSummary] == Items([]);
    var few := Take(Distinct(Characters(e)), 5);
    var final := SummaryEnforced(r, pack).value;
    assert final.Claims(ExecutiveSummary) == [Citing(few)];
    FirstUnknown(final, few, IdsOf(pack));
  }

  lemma FirstUnknown(final: Report, few: seq<string>, known: set<string>)
    requires few != [] && final.Claims(ExecutiveSummary) == [Citing(few)]
    ensures few[0] !in known ==> !Grounded(final, known)
  {
    CitingCites(few);
    assert final.Claims(ExecutiveSummary)[0] == Citing(few);
  }

  lemma {:induction false} DistinctStartsWithFirst(ids: seq<string>)
    requires ids != []
    ensures Distinct(ids) != [] && Distinct(ids)[0] == ids[0]
  {
    if |ids| > 1 {
      DistinctStartsWithFirst(ids[..|ids| - 1]);
    }
  }

  /** A draft whose only finding nests its list is accepted, and then the node raises. */
  lemma NestedListRaises(req: Request, id: string)
    requires OneDocument(req, id)
    ensures Run(PLAIN, req, Some(DraftWith(Many([Group([id])])))).None?
  {
    assert FlattenElems([Group([id])][1..]) == [];
    var r := RunOfDraftWith(req, id, Many([Group([id])]));
    NestedSummary(r, req.pack, [id]);
  }

  lemma NestedSummary(r: Report, pack: seq<Evidence>, ids: seq<string>)
    requires r.sections == DraftWith(Many([Group(ids)])).sections && pack != [] && ids != []
    ensures SummaryEnforced(r, pack).None?
  {
    NestedRefs(ids);
    assert r.Claims(KeyFindings) == [Claim(Genuine, Many([Group(ids)]))];
  }

  lemma NestedRefs(ids: seq<string>)
    requires ids != []
    ensures RawRefs([Claim(Genuine, Many([Group(ids)]))]).None?
  {
    assert RawElems([Group(ids)]).None?;
  }

  // ---------------------------------------------------------------------------------------------
  // Ill-typed values
  // ---------------------------------------------------------------------------------------------

  function OneFinding(id: string): Report {
    DraftWith(Many([Id(id)]))
  }

  lemma OneFindingIsAccepted(req: Request, id: string)
    requires OneDocument(req, id)
    ensures VerdictOn(OneFinding(id), map[], IdsOf(req.pack)) == Valid
  {
    assert FlattenElems([Id(id)][1..]) == [];
    DraftWithIsAccepted(req, id, Many([Id(id)]));
  }

  /** An accepted draft makes the node raise when it writes its actual cost as text, under a known id. */
  lemma TextualCostRaises(req: Request, id: string)
    requires OneDocument(req, id)
    ensures
      var d := OneFinding(id).(snapshot := Snapshot(map[ActualCost := Node(Text(false), One(id), true)], None));
      VerdictOn(d, map[], IdsOf(req.pack)) == Valid && Run(PLAIN, req, Some(d)).None?
  {
    var d := OneFinding(id).(snapshot := Snapshot(map[ActualCost := Node(Text(false), One(id), true)], None));
    OneFindingIsAccepted(req, id);
    VerdictIgnoresSnapshot(d, OneFinding(id), IdsOf(req.pack));
    NoRows(req, id);
    ReportIsProducedIff(PLAIN, req, Some(d));
    assert req.pack[0] in req.pack && id in IdsOf(req.pack);
    assert FiguresFor(req, d).actual == Node(Text(false), One(id), true);
  }

  /** So it does when an available actual cost cites a list of ids. */
  lemma ListedCostRaises(req: Request, id: string)
    requires OneDocument(req, id)
    ensures
      var d := OneFinding(id).(snapshot := Snapshot(map[ActualCost := Node(Num(1), Several([id]), true)], None));
      VerdictOn(d, map[], IdsOf(req.pack)) == Valid && Run(PLAIN, req, Some(d)).None?
  {
    var d := OneFinding(id).(snapshot := Snapshot(map[ActualCost := Node(Num(1), Several([id]), true)], None));
    OneFindingIsAccepted(req, id);
    VerdictIgnoresSnapshot(d, OneFinding(id), IdsOf(req.pack));
    NoRows(req, id);
    ReportIsProducedIff(PLAIN, req, Some(d));
  }

  /** So it does when the executive answer has no length, since that length is logged. */
  lemma UnmeasuredAnswerRaises(req: Request, id: string)
    requires OneDocument(req, id)
    ensures
      var d := OneFinding(id).(answer := EMPTY_ANSWER.(executive := Falsy(false)));
      VerdictOn(d, map[], IdsOf(req.pack)) == Valid && Run(PLAIN, req, Some(d)).None?
  {
    var d := OneFinding(id).(answer := EMPTY_ANSWER.(executive := Falsy(false)));
    OneFindingIsAccepted(req, id);
    VerdictIgnoresSnapshot(d, OneFinding(id), IdsOf(req.pack));
    ReportIsProducedIff(PLAIN, req, Some(d));
  }

  /** So it does, on a management question, when the decision it asks for is a number. */
  lemma NumberAsDecisionRaises(req: Request, id: string)
    requires OneDocument(req, id) && req.managementQuestion
    ensures
      var d := OneFinding(id).(answer := EMPTY_ANSWER.(decision := Thing(false)));
      VerdictOn(d, map[], IdsOf(req.pack)) == Valid && Run(PLAIN, req, Some(d)).None?
  {
    var d := OneFinding(id).(answer := EMPTY_ANSWER.(decision := Thing(false)));
    OneFindingIsAccepted(req, id);
    VerdictIgnoresSnapshot(d, OneFinding(id), IdsOf(req.pack));
    ReportIsProducedIff(PLAIN, req, Some(d));
  }

  // ---------------------------------------------------------------------------------------------
  // Reports without citations, a summary, or the right document
  // ---------------------------------------------------------------------------------------------

  lemma CauseIsPrompted(id: string)
    ensures
      var d := DraftOf([], [Citing([id])]);
      Prompted(d) && d.Claims(ExecutiveSummary) == [] && d.Claims(KeyFindings) == []
  {
    DraftSections([], [Citing([id])]);
    assert FlatCitations(DraftOf([], [Citing([id])]));
  }

  /** An accepted draft with a root cause and no findings ends with an empty summary, to which the gate objects. */
  lemma CauseAloneLeavesNoSummary(req: Request, id: string)
    requires OneDocument(req, id)
    ensures
      var final := Run(PLAIN, req, Some(DraftOf([], [Citing([id])])));
      final.Some? && !GateAcceptsSummary(final.value, req.pack)
  {
    var d := DraftOf([], [Citing([id])]);
    CitingCites([id]);
    assert req.pack[0] in req.pack && id in IdsOf(req.pack);
    PassingDraft([], [Citing([id])], IdsOf(req.pack));
    CauseIsPrompted(id);
    PromptedDraftsProceed(PLAIN, req, Some(d));
    FinalSummaryIff(PLAIN, req, Some(d));
  }

  /** A pack of one Odoo cost line without an amount, for a report that is not financial. */
  predicate OneBareCostLine(req: Request) {
    && |req.pack| == 1 && req.kind.OtherReport?
    && var line := req.pack[0];
    && line.sourceType.Odoo? && line.isCostLine && CostAmount(line).None? && line.category == OtherCategory
  }

  /** Over such a pack an unreadable draft ends without a summary, though evidence was retrieved. */
  lemma BareCostLineLeavesNoSummary(norm: string -> string, req: Request)
    requires OneBareCostLine(req)
    ensures
      var final := Run(norm, req, None);
      final.Some? && !GateAcceptsSummary(final.value, req.pack)
  {
    ReportIsProducedIff(norm, req, None);
    FinalSummaryIff(norm, req, None);
    OnlyRow(req.pack[0]);
    BareCostLineOffersNothing(req.pack[0]);
    assert req.pack == [req.pack[0]];
  }

  lemma FilterOne(e: Evidence, keep: Evidence -> bool)
    ensures Filter([e], keep) == if keep(e) then [e] else []
  {
    assert [e][..0] == [];
  }

  lemma OnlyRow(line: Evidence)
    requires line.sourceType.Odoo?
    ensures OdooRows([line]) == [line] && Documents([line]) == []
  {
    FilterOne(line, (e: Evidence) => e.sourceType.Odoo?);
    FilterOne(line, (e: Evidence) => e.sourceType.SharePoint? || e.sourceType.OwnCloud?);
    FilterOne(line, (e: Evidence) => e.sourceType.Email?);
  }

  lemma BareCostLineOffersNothing(line: Evidence)
    requires line.isCostLine && CostAmount(line).None? && line.category == OtherCategory
    ensures BasicSummary(ContextOf([line]), []) == []
  {
    var rows := [line];
    assert rows[..0] == [];
    assert CostLines(rows) == [] + [line] && ProjectRecords(rows) == [];
    assert [] + [line] == rows && !CostTallyOf(rows).hasAmount;
    assert TallyOf(rows, PAYROLL_CATEGORIES, PAYROLL_FIELDS, None) == Tally(0, false, "");
    assert TallyOf(rows, EXPENSE_CATEGORIES, EXPENSE_FIELDS, None) == Tally(0, false, "");
  }

  /** A salary question over an empty pack ends with a recommendation that cites nothing. */
  lemma SalaryOverNothingIsUngrounded(norm: string -> string, req: Request, draft: Option<Report>)
    requires req.pack == [] && req.kind.SalaryReport? && !req.salaryEvidence
    ensures Run(norm, req, draft).Some? && !Grounded(Run(norm, req, draft).value, IdsOf(req.pack))
  {
    SalaryGroundedIff(req.pack);
  }

  /**
    When two documents share a title, a claim that correctly cites the first, beside a source entry
    that correctly describes it, is moved to the second.
  */
  lemma SharedTitleMovesCitation(first: Evidence, second: Evidence, title: string)
    requires first.title == title && second.title == title && title != ""
    requires first.id != "" && second.id != "" && first.id != second.id
    ensures
      var entry := SourceEntry(first.id, title, first.uri);
      var r := Report(map[KeyFindings := Items([Citing([first.id])])], NO_SNAPSHOT, [entry], EMPTY_ANSWER);
      var after := Remap(PLAIN, r, [first, second]);
      after.Some? && Flatten(after.value.Claims(KeyFindings)[0].ids) == [second.id]
  {
    var pack := [first, second];
    var entry := SourceEntry(first.id, title, first.uri);
    var r := Report(map[KeyFindings := Items([Citing([first.id])])], NO_SNAPSHOT, [entry], EMPTY_ANSWER);
    assert ByTitle(PLAIN, pack)[title] == second.id;
    assert RealId(PLAIN, entry, pack) == Some(second.id);
    assert Synthetic(PLAIN, [entry][..0], pack) == map[];
    assert Synthetic(PLAIN, [entry], pack) == map[first.id := second.id];
    var synth := Synthetic(PLAIN, r.sources, pack);
    RemappedIds(synth, Citing([first.id]));
    CitingCites([first.id]);
    assert Remap(PLAIN, r, pack).value.Claims(KeyFindings)[0] == RemapItem(synth, Citing([first.id]));
  }
}
