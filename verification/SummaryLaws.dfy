/**
  When the final report passes the quality gate's check of its executive summary
  (apps/edr/graph/node_13_quality_gate.py), for every draft.
*/
module SummaryLaws {
  import opened Wrappers
  import opened Finance
  import opened FinanceLaws
  import opened Citations
  import opened CitationLaws
  import opened Drafting
  import opened DraftingLaws
  import opened QuotationLaws
  import opened BuiltLaws
  import opened GroundingLaws
  import opened RebuiltLaws

  /** The gate objects to an empty summary over retrieved evidence. */
  predicate GateAcceptsSummary(r: Report, pack: seq<Evidence>) {
    ExecutiveSummary in r.sections && r.sections[ExecutiveSummary] == Items([]) ==> pack == []
  }

  // ---------------------------------------------------------------------------------------------
  // What can be quoted
  // ---------------------------------------------------------------------------------------------

  /** Some id is not blank. */
  predicate Speaks(ids: seq<string>) {
    exists i :: 0 <= i < |ids| && ids[i] != ""
  }

  predicate ItemSpeaks(item: Item) {
    item.Claim? && Speaks(Flatten(item.ids))
  }

  /** One of the first three items cites an id that is not blank. */
  predicate LeadSpeaks(items: seq<Item>) {
    exists i :: 0 <= i < |items| && i < 3 && ItemSpeaks(items[i])
  }

  lemma SpeaksConcat(a: seq<string>, b: seq<string>)
    ensures Speaks(a + b) <==> Speaks(a) || Speaks(b)
  {
    if i :| 0 <= i < |a| && a[i] != "" { assert (a + b)[i] != ""; }
    if i :| 0 <= i < |b| && b[i] != "" { assert (a + b)[|a| + i] != ""; }
  }

  lemma {:induction false} LooseElemsSpeak(elems: seq<RawId>)
    requires NoList(elems)
    ensures LooseElems(elems) != [] <==> Speaks(FlattenElems(elems))
  {
    if elems != [] {
      var n := |elems| - 1;
      NoListSnoc(elems);
      LooseElemsSpeak(elems[..n]);
      FlattenSnoc(elems);
      SpeaksConcat(FlattenElems(elems[..n]), FlattenElems([elems[n]]));
      SingleSpeaks(elems[n]);
    }
  }

  lemma SingleSpeaks(elem: RawId)
    requires elem.Group? ==> elem.ids == []
    ensures Speaks(FlattenElems([elem])) <==> elem.Id? && elem.id != ""
  {
    assert [elem][1..] == [] && FlattenElems([]) == [];
    if elem.Id? && elem.id != "" { assert FlattenElems([elem])[0] != ""; }
  }

  /** Collecting an item's raw ids yields something exactly when it cites an id that is not blank. */
  lemma LooseSpeaks(item: Item)
    requires Collectable(item)
    ensures LooseOf(item) != [] <==> ItemSpeaks(item)
  {
    match item.ids
    case Bare(e) => if e != "" { assert Flatten(item.ids)[0] == e; }
    case Many(elems) => LooseElemsSpeak(elems);
  }

  predicate SomeSpeaks(items: seq<Item>) {
    exists i :: 0 <= i < |items| && ItemSpeaks(items[i])
  }

  lemma SomeSpeaksSnoc(front: seq<Item>, last: Item)
    ensures SomeSpeaks(front + [last]) <==> SomeSpeaks(front) || ItemSpeaks(last)
  {
    var all := front + [last];
    assert all[|front|] == last;
    if i :| 0 <= i < |front| && ItemSpeaks(front[i]) { assert all[i] == front[i]; }
    if i :| 0 <= i < |all| && ItemSpeaks(all[i]) { assert i < |front| ==> all[i] == front[i]; }
  }

  lemma {:induction false} LooseRefsSpeak(items: seq<Item>)
    requires AllCollectable(items)
    ensures LooseRefs(items) != [] <==> SomeSpeaks(items)
  {
    if items != [] {
      var n := |items| - 1;
      LooseRefsSpeak(items[..n]);
      LooseSpeaks(items[n]);
      SomeSpeaksSnoc(items[..n], items[n]);
      assert items == items[..n] + [items[n]];
    }
  }

  lemma LeadSpeaksIff(items: seq<Item>)
    ensures LeadSpeaks(items) <==> SomeSpeaks(Take(items, 3))
  {
    if i :| 0 <= i < |items| && i < 3 && ItemSpeaks(items[i]) { assert ItemSpeaks(Take(items, 3)[i]); }
    if i :| 0 <= i < |Take(items, 3)| && ItemSpeaks(Take(items, 3)[i]) { assert ItemSpeaks(items[i]); }
  }

  // ---------------------------------------------------------------------------------------------
  // Through the remap and the last steps
  // ---------------------------------------------------------------------------------------------

  lemma RemappedSpeaks(norm: string -> string, sources: seq<SourceEntry>, pack: seq<Evidence>, item: Item)
    ensures ItemSpeaks(RemapItem(Synthetic(norm, sources, pack), item)) <==> ItemSpeaks(item)
  {
    var synth := Synthetic(norm, sources, pack);
    if item.Claim? {
      SyntheticLeadsToPack(norm, sources, pack);
      RenamedIff(norm, sources, pack, "");
      RemappedIds(synth, item);
      var before, after := Flatten(item.ids), Flatten(RemapItem(synth, item).ids);
      assert forall i :: 0 <= i < |before| ==> after[i] == Resolve(synth, before[i]);
    }
  }

  /** A remap keeps the number of claims of a section, and whether its lead cites anything. */
  lemma RemapKeepsSpeaking(norm: string -> string, r: Report, pack: seq<Evidence>, s: Section)
    requires Remap(norm, r, pack).Some?
    ensures
      var after := Remap(norm, r, pack).value.Claims(s);
      |after| == |r.Claims(s)| && (LeadSpeaks(after) <==> LeadSpeaks(r.Claims(s)))
  {
    var synth, after := Synthetic(norm, r.sources, pack), Remap(norm, r, pack).value.Claims(s);
    if synth == map[] {
      assert after == r.Claims(s);
    } else {
      assert after == RemapItems(synth, r.Claims(s));
      forall i | 0 <= i < |after|
        ensures ItemSpeaks(after[i]) <==> ItemSpeaks(r.Claims(s)[i])
      {
        RemappedSpeaks(norm, r.sources, pack, r.Claims(s)[i]);
      }
    }
  }

  /** The summary of last resort: the check passes exactly with a summary, or findings that can be quoted. */
  lemma LastSummaryIff(m: Report, pack: seq<Evidence>)
    requires AllLists(m) && SummaryEnforced(m, pack).Some?
    ensures GateAcceptsSummary(SummaryEnforced(m, pack).value, pack) <==>
              pack == [] || m.Claims(ExecutiveSummary) != [] || LeadSpeaks(m.Claims(KeyFindings))
  {
    SummaryEmptyIff(m, pack);
    SummaryWrittenIff(m, pack);
    LeadSpeaksIff(m.Claims(KeyFindings));
    if NeedsSummary(m, pack) {
      LooseRefsSpeak(Leading(m));
    }
  }

  lemma StepsSummaryIff(norm: string -> string, req: Request, f: Report)
    requires AllLists(f) && Remap(norm, f, req.pack).Some?
    requires SummaryEnforced(Resourced(req, Remap(norm, f, req.pack).value), req.pack).Some?
    ensures
      var final := SummaryEnforced(Resourced(req, Remap(norm, f, req.pack).value), req.pack).value;
      GateAcceptsSummary(final, req.pack) <==>
        req.pack == [] || f.Claims(ExecutiveSummary) != [] || LeadSpeaks(f.Claims(KeyFindings))
  {
    var m := Remap(norm, f, req.pack).value;
    RemapKeepsSpeaking(norm, f, req.pack, ExecutiveSummary);
    RemapKeepsSpeaking(norm, f, req.pack, KeyFindings);
    var listed := Resourced(req, m);
    assert listed.Claims(ExecutiveSummary) == m.Claims(ExecutiveSummary);
    assert listed.Claims(KeyFindings) == m.Claims(KeyFindings);
    LastSummaryIff(listed, req.pack);
  }

  /** Of any report that is corrected: told from its sections after the synthesis. */
  lemma CorrectedSummaryIff(norm: string -> string, req: Request, r: Report)
    requires AllLists(r) && Corrected(norm, req, r).Some?
    ensures
      var f := Synthesised(req, r);
      GateAcceptsSummary(Corrected(norm, req, r).value, req.pack) <==>
        req.pack == [] || f.Claims(ExecutiveSummary) != [] || LeadSpeaks(f.Claims(KeyFindings))
  {
    CorrectedIs(norm, req, r);
    ForcedIsLists(SnapshotEnforced(req, r), PackContext(req));
    StepsSummaryIff(norm, req, Synthesised(req, r));
  }

  // ---------------------------------------------------------------------------------------------
  // Reports that are not financial
  // ---------------------------------------------------------------------------------------------

  lemma PlainSynthesis(req: Request, r: Report)
    requires !req.kind.FinancialReport?
    ensures forall s :: Synthesised(req, r).Claims(s) == r.Claims(s)
  {}

  lemma PreparedSpeaks(norm: string -> string, req: Request, d: Report)
    requires Prepared(norm, req, d).Some? && VerdictOn(d, Renames(norm, req, d), IdsOf(req.pack)) == Valid
    ensures
      var r := Prepared(norm, req, d).value;
      && AllLists(r) && AllLists(d) && req.pack != []
      && |r.Claims(ExecutiveSummary)| == |d.Claims(ExecutiveSummary)|
      && (LeadSpeaks(r.Claims(KeyFindings)) <==> LeadSpeaks(d.Claims(KeyFindings)))
  {
    var entered := d.(snapshot := FromOdoo(d.snapshot, PackContext(req), IdsOf(req.pack)));
    assert entered.Claims(ExecutiveSummary) == d.Claims(ExecutiveSummary);
    assert entered.Claims(KeyFindings) == d.Claims(KeyFindings);
    RemapKeepsSpeaking(norm, entered, req.pack, ExecutiveSummary);
    RemapKeepsSpeaking(norm, entered, req.pack, KeyFindings);
    PreparedCites(norm, req, d);
    ValidMeans(Prepared(norm, req, d).value, map[], IdsOf(req.pack));
    ValidMeans(d, Renames(norm, req, d), IdsOf(req.pack));
  }

  lemma ValidSpeaks(d: Report, synth: map<string, string>, ids: set<string>, i: nat)
    requires VerdictOn(d, synth, ids) == Valid && "" !in synth
    requires i < |d.Claims(KeyFindings)| && d.Claims(KeyFindings)[i].Claim?
    ensures ItemSpeaks(d.Claims(KeyFindings)[i])
  {
    ValidMeans(d, synth, ids);
    var item := d.Claims(KeyFindings)[i];
    assert ValidItem(item, synth, ids);
    assert ValidId(Resolve(synth, Flatten(item.ids)[0]), ids);
    assert Flatten(item.ids)[0] != "";
  }

  /** An accepted draft with findings but no summary is given one from them. */
  lemma AcceptedLeadSpeaks(norm: string -> string, req: Request, d: Report)
    requires !req.kind.FinancialReport? && Prepared(norm, req, d).Some?
    requires VerdictOn(d, Renames(norm, req, d), IdsOf(req.pack)) == Valid
    requires SummaryProceeds(norm, req, d) && d.Claims(ExecutiveSummary) == []
    ensures LeadSpeaks(d.Claims(KeyFindings)) <==> d.Claims(KeyFindings) != []
  {
    PreparedSpeaks(norm, req, d);
    if d.Claims(KeyFindings) != [] {
      RenamedIff(norm, d.sources, req.pack, "");
      assert NeedsSummary(d, req.pack) && Leading(d)[0] == d.Claims(KeyFindings)[0];
      assert AllCollectable(Leading(d)) ==> Collectable(Leading(d)[0]);
      ValidSpeaks(d, Renames(norm, req, d), IdsOf(req.pack), 0);
    }
  }

  /**
    An accepted draft that is no financial report passes the check exactly when it has a summary, or
    findings to write one from.
  */
  lemma AcceptedSummaryIff(norm: string -> string, req: Request, d: Report)
    requires !req.kind.FinancialReport? && Prepared(norm, req, d).Some?
    requires VerdictOn(d, Renames(norm, req, d), IdsOf(req.pack)) == Valid
    requires Corrected(norm, req, Prepared(norm, req, d).value).Some?
    ensures GateAcceptsSummary(Corrected(norm, req, Prepared(norm, req, d).value).value, req.pack) <==>
              d.Claims(ExecutiveSummary) != [] || d.Claims(KeyFindings) != []
  {
    var r := Prepared(norm, req, d).value;
    PreparedSpeaks(norm, req, d);
    SummaryOfPlain(norm, req, r);
    AcceptedOutcome(norm, req, d);
    if d.Claims(ExecutiveSummary) == [] {
      AcceptedLeadSpeaks(norm, req, d);
    }
  }

  lemma DraftedClaims(req: Request)
    ensures Drafted(req).Claims(ExecutiveSummary) == BasicSummary(PackContext(req), Documents(Usable(req)))
    ensures !req.kind.FinancialReport? ==>
              Drafted(req).Claims(KeyFindings) == TopicClaims(Documents(req.pack), GeneralTopic)
  {
    SameRows(req);
  }

  lemma BuiltClaims(req: Request)
    requires !req.kind.FinancialReport?
    ensures Build(req).Claims(ExecutiveSummary) == BasicSummary(PackContext(req), Documents(req.pack))
    ensures Build(req).Claims(KeyFindings) == TopicClaims(Documents(req.pack), GeneralTopic)
  {
    BuiltFromDrafted(req);
    DraftedClaims(req);
  }

  /** A rebuilt report passes exactly when its evidence offers a summary, or findings with an id. */
  lemma RebuiltSummaryIff(norm: string -> string, req: Request)
    requires !req.kind.FinancialReport? && Corrected(norm, req, Build(req)).Some?
    ensures GateAcceptsSummary(Corrected(norm, req, Build(req)).value, req.pack) <==>
              || req.pack == [] || BasicSummary(PackContext(req), Documents(req.pack)) != []
              || LeadSpeaks(TopicClaims(Documents(req.pack), GeneralTopic))
  {
    BuiltIsSound(req);
    BuiltClaims(req);
    SummaryOfPlain(norm, req, Build(req));
  }

  lemma SummaryOfPlain(norm: string -> string, req: Request, r: Report)
    requires !req.kind.FinancialReport? && AllLists(r) && Corrected(norm, req, r).Some?
    ensures GateAcceptsSummary(Corrected(norm, req, r).value, req.pack) <==>
              req.pack == [] || r.Claims(ExecutiveSummary) != [] || LeadSpeaks(r.Claims(KeyFindings))
  {
    CorrectedSummaryIff(norm, req, r);
    PlainSynthesis(req, r);
  }

  // ---------------------------------------------------------------------------------------------
  // Financial reports
  // ---------------------------------------------------------------------------------------------

  /** The ids of the variance a report shows: of the estimate and the spend, or the draft's own. */
  function VarianceIds(f: Figures, before: Option<Variance>): seq<string> {
    if f.Measurable() then TwoRefs(f.estimate.eid, f.SpentNode().eid)
    else if before.Some? && before.value.value != Null then before.value.eids
    else []
  }

  /** One of the first three findings cites an id: of a figure shown, of the variance, or of a record in their place. */
  ghost predicate FindingsSpeak(f: Figures, before: Option<Variance>, ctx: OdooCtx) {
    var refs := RefsOfNodes(f.Nodes());
    || (exists i :: 0 <= i < |refs| && i < 3 && Speaks(refs[i].Ids()))
    || (|refs| < 3 && Speaks(VarianceIds(f, before)))
    || (refs == [] && VarianceIds(f, before) == [] && NonBlankIds(ctx.projectRecords) != [])
  }

  lemma {:induction false} NonBlankSpeak(items: seq<Evidence>)
    ensures forall x :: x in NonBlankIds(items) ==> x != ""
  {
    if items != [] { NonBlankSpeak(items[..|items| - 1]); }
  }

  lemma FewSpeak(ids: seq<string>, n: nat)
    requires ids != [] && n > 0 && forall x :: x in ids ==> x != ""
    ensures ItemSpeaks(Citing(Take(Distinct(ids), n)))
  {
    FewOfSome(ids, n);
    DistinctMeaning(ids);
    var few := Take(Distinct(ids), n);
    CitingCites(few);
    assert few[0] == Distinct(ids)[0] && Distinct(ids)[0] in Distinct(ids);
  }

  lemma RefSpeaks(ref: Ref)
    requires ref.Ids() != []
    ensures ItemSpeaks(CitingRef(ref)) <==> Speaks(ref.Ids())
  {
    RefCites(ref);
  }

  /** The leading findings, as long as there is anything to find besides records. */
  lemma ShownLead(refs: seq<Ref>, more: seq<Item>)
    requires forall i :: 0 <= i < |refs| ==> refs[i].Ids() != []
    requires |more| <= 1
    ensures LeadSpeaks(RefClaims(refs) + more) <==>
              || (exists i :: 0 <= i < |refs| && i < 3 && Speaks(refs[i].Ids()))
              || (|refs| < 3 && more != [] && ItemSpeaks(more[0]))
  {
    var all := RefClaims(refs) + more;
    forall i | 0 <= i < |refs|
      ensures all[i] == CitingRef(refs[i]) && (ItemSpeaks(all[i]) <==> Speaks(refs[i].Ids()))
    {
      RefSpeaks(refs[i]);
    }
    if more != [] { assert all[|refs|] == more[0]; }
  }

  lemma VarianceSpeaks(e: Snapshot, f: Figures, before: Option<Variance>)
    requires e.variance == Some(f.VarianceAfter(before)) && HasVariance(e)
    ensures e.variance.value.eids == VarianceIds(f, before)
    ensures VarianceFinding(e) == if VarianceIds(f, before) != [] then [Citing(VarianceIds(f, before))] else []
  {}

  lemma CitingSpeaks(ids: seq<string>)
    ensures ItemSpeaks(Citing(ids)) <==> Speaks(ids)
  {
    CitingCites(ids);
  }

  /** The finding in place of a variance cites what figures already cite. */
  lemma PlaceholderSpeaks(refs: seq<Ref>)
    requires refs != [] && |refs| < 3 && forall i :: 0 <= i < |refs| ==> refs[i].Ids() != []
    requires ItemSpeaks(Citing(Take(Distinct(AllIds(refs)), 2)))
    ensures exists i :: 0 <= i < |refs| && i < 3 && Speaks(refs[i].Ids())
  {
    var few := Take(Distinct(AllIds(refs)), 2);
    CitingSpeaks(few);
    DistinctMeaning(AllIds(refs));
    var k :| 0 <= k < |few| && few[k] != "";
    assert few[k] == Distinct(AllIds(refs))[k] && few[k] in Distinct(AllIds(refs));
    AllIdsFrom(refs, few[k]);
    var i :| 0 <= i < |refs| && few[k] in refs[i].Ids();
    assert Speaks(refs[i].Ids());
  }

  lemma {:induction false} AllIdsFrom(refs: seq<Ref>, id: string)
    requires id in AllIds(refs)
    ensures exists i :: 0 <= i < |refs| && id in refs[i].Ids()
  {
    var n := |refs| - 1;
    if id in AllIds(refs[..n]) {
      AllIdsFrom(refs[..n], id);
      var i :| 0 <= i < |refs[..n]| && id in refs[..n][i].Ids();
      assert id in refs[i].Ids();
    } else {
      assert id in refs[n].Ids();
    }
  }

  /** The findings a financial report is given, told from its figures. */
  lemma FindingsSpeakIff(e: Snapshot, f: Figures, before: Option<Variance>, ctx: OdooCtx)
    requires WorkedOut(e, f, before)
    ensures LeadSpeaks(SnapshotFindings(e, ctx)) <==> FindingsSpeak(f, before, ctx)
  {
    var refs, more := ShownRefs(e, LABELLED_FIGS), VarianceFinding(e);
    LabelledNodes(e, f, before);
    ShownAreFigures(e, LABELLED_FIGS, f.Nodes());
    ShownRefsKnownIff(e, LABELLED_FIGS, {});
    ShownLead(refs, more);
    var findings, records := RefClaims(refs) + more, NonBlankIds(ctx.projectRecords);
    if findings == [] && records != [] {
      NonBlankSpeak(ctx.projectRecords);
      FewSpeak(records, 2);
      assert SnapshotFindings(e, ctx)[0] == Citing(Take(Distinct(records), 2));
    } else {
      assert SnapshotFindings(e, ctx) == findings;
    }
    VarianceLead(e, f, before, refs);
  }

  lemma VarianceLead(e: Snapshot, f: Figures, before: Option<Variance>, refs: seq<Ref>)
    requires e.variance == Some(f.VarianceAfter(before)) && refs == ShownRefs(e, LABELLED_FIGS)
    requires forall i :: 0 <= i < |refs| ==> refs[i].Ids() != []
    ensures refs == [] ==> (VarianceFinding(e) == [] <==> VarianceIds(f, before) == [])
    ensures |refs| < 3 ==>
      ((VarianceFinding(e) != [] && ItemSpeaks(VarianceFinding(e)[0]))
         || (exists i :: 0 <= i < |refs| && i < 3 && Speaks(refs[i].Ids()))
       <==> Speaks(VarianceIds(f, before)) || (exists i :: 0 <= i < |refs| && i < 3 && Speaks(refs[i].Ids())))
  {
    CitingSpeaks(VarianceIds(f, before));
    if HasVariance(e) {
      VarianceSpeaks(e, f, before);
    } else if refs != [] && |refs| < 3 && ItemSpeaks(VarianceFinding(e)[0]) {
      PlaceholderSpeaks(refs);
    }
  }

  lemma ForcedSynthesis(req: Request, r: Report)
    requires req.kind.FinancialReport?
    ensures
      var f, ctx := Synthesised(req, r), PackContext(req);
      && f.Claims(KeyFindings) == SnapshotFindings(SnapshotEnforced(req, r).snapshot, ctx)
      && f.Claims(ExecutiveSummary) ==
           if ForcedSummary(ctx).Some? then BasicSummary(ctx, []) else r.Claims(ExecutiveSummary)
  {
    ForcedSection(SnapshotEnforced(req, r), PackContext(req), KeyFindings);
    ForcedSection(SnapshotEnforced(req, r), PackContext(req), ExecutiveSummary);
  }

  /** An accepted financial draft passes exactly when its summary is not left empty, or a leading finding cites. */
  lemma AcceptedFinancialSummaryIff(norm: string -> string, req: Request, d: Report)
    requires req.kind.FinancialReport? && Prepared(norm, req, d).Some?
    requires VerdictOn(d, Renames(norm, req, d), IdsOf(req.pack)) == Valid
    requires Corrected(norm, req, Prepared(norm, req, d).value).Some?
    ensures GateAcceptsSummary(Corrected(norm, req, Prepared(norm, req, d).value).value, req.pack) <==>
              !SummaryLeftEmpty(req, d) || FindingsSpeak(FiguresFor(req, d), d.snapshot.variance, PackContext(req))
  {
    var r, ctx, rows, ids := Prepared(norm, req, d).value, PackContext(req), OdooRows(req.pack), IdsOf(req.pack);
    PreparedSpeaks(norm, req, d);
    CorrectedSummaryIff(norm, req, r);
    ForcedSynthesis(req, r);
    PreparedIs(norm, req, d);
    FirstPassOnce(d.snapshot, ctx, rows, ids);
    EnforcedIs(FromOdoo(d.snapshot, ctx, ids), ctx, rows, ids);
    FindingsSpeakIff(SnapshotEnforced(req, r).snapshot, FiguresFor(req, d), d.snapshot.variance, ctx);
  }

  // ---------------------------------------------------------------------------------------------
  // Rebuilt financial reports
  // ---------------------------------------------------------------------------------------------

  /** The figures of a rebuilt report: what the rows of the pack give, and nothing else. */
  function RebuiltFigures(req: Request): Figures {
    DraftFigures(BLANK_SNAPSHOT, PackContext(req), OdooRows(req.pack), IdsOf(req.pack))
  }

  /** The summary of a rebuilt financial report: from figures and records, or else from the documents it may use. */
  function BuiltSummary(req: Request): seq<Item> {
    if ForcedSummary(PackContext(req)).Some? then BasicSummary(PackContext(req), [])
    else BasicSummary(PackContext(req), Documents(Usable(req)))
  }

  lemma BuiltFinancialSummary(req: Request)
    requires req.kind.FinancialReport? && ForcedSummary(PackContext(req)).None?
    ensures Build(req).Claims(ExecutiveSummary) == BuiltSummary(req)
  {
    BuiltFromDrafted(req);
    DraftedClaims(req);
    ForcedSection(Drafted(req), PackContext(req), ExecutiveSummary);
  }

  /** A rebuilt financial report passes exactly when the pack offers a summary, or a leading finding with an id. */
  lemma RebuiltFinancialSummaryIff(norm: string -> string, req: Request)
    requires req.kind.FinancialReport? && Corrected(norm, req, Build(req)).Some?
    ensures GateAcceptsSummary(Corrected(norm, req, Build(req)).value, req.pack) <==>
              || req.pack == [] || BuiltSummary(req) != []
              || FindingsSpeak(RebuiltFigures(req), BLANK_SNAPSHOT.variance, PackContext(req))
  {
    BuiltIsSound(req);
    CorrectedSummaryIff(norm, req, Build(req));
    ForcedSynthesis(req, Build(req));
    if ForcedSummary(PackContext(req)).None? { BuiltFinancialSummary(req); }
    BuiltSnapshotIsBlank(req);
    EnforcedIs(BLANK_SNAPSHOT, PackContext(req), OdooRows(req.pack), IdsOf(req.pack));
    FindingsSpeakIff(SnapshotEnforced(req, Build(req)).snapshot, RebuiltFigures(req), BLANK_SNAPSHOT.variance,
                     PackContext(req));
  }

  // ---------------------------------------------------------------------------------------------
  // Every report
  // ---------------------------------------------------------------------------------------------

  ghost predicate Accepted(norm: string -> string, req: Request, draft: Option<Report>) {
    draft.Some? && VerdictOn(draft.value, Renames(norm, req, draft.value), IdsOf(req.pack)) == Valid
  }

  /** The report has a summary, or something to write one from: told from the draft, or from the pack. */
  ghost predicate LeavesSummary(norm: string -> string, req: Request, draft: Option<Report>) {
    if req.kind.SalaryReport? && !req.salaryEvidence then SalaryCitations(req.pack) != []
    else if Accepted(norm, req, draft) then
      if req.kind.FinancialReport? then
        || !SummaryLeftEmpty(req, draft.value)
        || FindingsSpeak(FiguresFor(req, draft.value), draft.value.snapshot.variance, PackContext(req))
      else
        draft.value.Claims(ExecutiveSummary) != [] || draft.value.Claims(KeyFindings) != []
    else if req.kind.FinancialReport? then
      BuiltSummary(req) != [] || FindingsSpeak(RebuiltFigures(req), BLANK_SNAPSHOT.variance, PackContext(req))
    else
      || BasicSummary(PackContext(req), Documents(req.pack)) != []
      || LeadSpeaks(TopicClaims(Documents(req.pack), GeneralTopic))
  }

  /** Where the final report comes from. */
  lemma Origin(norm: string -> string, req: Request, draft: Option<Report>)
    requires !(req.kind.SalaryReport? && !req.salaryEvidence) && Run(norm, req, draft).Some?
    ensures
      if Accepted(norm, req, draft)
      then
        && Prepared(norm, req, draft.value).Some?
        && Run(norm, req, draft) == Corrected(norm, req, Prepared(norm, req, draft.value).value)
      else Run(norm, req, draft) == Corrected(norm, req, Build(req))
  {
    if draft.Some? { DraftOutcome(norm, req, draft.value); }
  }

  /**
    For every draft and request from which a report is produced: the gate accepts its summary exactly
    when nothing was retrieved, or the draft, if it is accepted, or else the pack leaves it one.
  */
  lemma FinalSummaryIff(norm: string -> string, req: Request, draft: Option<Report>)
    requires Run(norm, req, draft).Some?
    ensures GateAcceptsSummary(Run(norm, req, draft).value, req.pack) <==>
              req.pack == [] || LeavesSummary(norm, req, draft)
  {
    if !(req.kind.SalaryReport? && !req.salaryEvidence) {
      Origin(norm, req, draft);
      if Accepted(norm, req, draft) {
        PreparedSpeaks(norm, req, draft.value);
        if req.kind.FinancialReport? {
          AcceptedFinancialSummaryIff(norm, req, draft.value);
        } else {
          AcceptedSummaryIff(norm, req, draft.value);
        }
      } else if req.kind.FinancialReport? {
        RebuiltFinancialSummaryIff(norm, req);
      } else {
        RebuiltSummaryIff(norm, req);
      }
    }
  }
}
