/**
  The quality gate's checks of claims and figures (apps/edr/graph/node_13_quality_gate.py), and what
  reports drafted with flat citations, or as the prompt asks, bring to them.
*/
module GateLaws {
  import opened Wrappers
  import opened AnswerLaws
  import opened Finance
  import opened FinanceLaws
  import opened Citations
  import opened CitationLaws
  import opened Drafting
  import opened DraftingLaws
  import opened QuotationLaws
  import opened BuiltLaws
  import opened GroundingLaws

  // ---------------------------------------------------------------------------------------------
  // The gate
  // ---------------------------------------------------------------------------------------------

  /** The gate iterates the ids as they stand; a nested list makes it raise. */
  predicate GateSupports(item: Item, ids: set<string>) {
    match item
    case Other => true
    case Claim(_, raw) =>
      match raw
      case Bare(e) => e != "" && forall i :: 0 <= i < |e| ==> [e[i]] in ids
      case Many(elems) => elems != [] && forall i :: 0 <= i < |elems| ==> elems[i].Id? && elems[i].id in ids
  }

  ghost predicate GateSupportsAll(r: Report, ids: set<string>) {
    forall s, i :: 0 <= i < |r.Claims(s)| ==> GateSupports(r.Claims(s)[i], ids)
  }

  predicate GateAcceptsNode(n: Node, ids: set<string>) {
    n.available ==> n.eid.In(ids) && n.eid.id != ""
  }

  ghost predicate GateAcceptsFigures(s: Snapshot, ids: set<string>) {
    && (forall f :: GateAcceptsNode(s.At(f), ids))
    && (s.variance.Some? ==> AllIn(s.variance.value.eids, ids))
  }

  /**
    The gate and the validator of the drafting node agree on a list exactly when it holds no null
    and no nested list: the validator flattens, the gate does not.
  */
  lemma GateAgreesOnFlatIff(item: Item, ids: set<string>)
    requires item.Claim? && item.ids.Many? && ItemGrounded(item, ids)
    ensures GateSupports(item, ids) <==> FlatItem(item)
  {
    if FlatItem(item) {
      FlattenOfFlat(item.ids.elems);
      forall i | 0 <= i < |item.ids.elems|
        ensures item.ids.elems[i].id in ids
      {
        assert Flatten(item.ids)[i] == item.ids.elems[i].id;
      }
    }
  }

  // ---------------------------------------------------------------------------------------------
  // Flat citations
  // ---------------------------------------------------------------------------------------------

  /** Every claim cites a flat list of strings; items that are no objects are let pass. */
  ghost predicate FlatClaims(items: seq<Item>) {
    forall i :: 0 <= i < |items| && items[i].Claim? ==> FlatItem(items[i])
  }

  /** So in every section, whether present or not. */
  ghost predicate FlatCitations(r: Report) {
    forall s :: FlatClaims(r.Claims(s))
  }

  lemma FlatAndGroundedIsSupported(r: Report, ids: set<string>)
    requires FlatCitations(r) && Grounded(r, ids)
    ensures GateSupportsAll(r, ids)
  {
    forall s, i | 0 <= i < |r.Claims(s)|
      ensures GateSupports(r.Claims(s)[i], ids)
    {
      assert FlatClaims(r.Claims(s)) && ItemsGrounded(r.Claims(s), ids);
      if r.Claims(s)[i].Claim? {
        GateAgreesOnFlatIff(r.Claims(s)[i], ids);
      }
    }
  }

  lemma FlatBringsNoCharacters(items: seq<Item>, known: set<string>)
    requires FlatClaims(items)
    ensures CharactersOk(items, known)
    ensures (forall i :: 0 <= i < |items| ==> items[i].Claim?) ==> AllCollectable(items)
  {
    forall i | 0 <= i < |items|
      ensures BareOk(items, i, known) && (items[i].Claim? ==> Collectable(items[i]))
    {
      assert items[i].Claim? ==> FlatItem(items[i]);
    }
  }

  lemma FlatLeading(r: Report)
    requires FlatCitations(r)
    ensures FlatClaims(Leading(r))
  {
    assert FlatClaims(r.Claims(KeyFindings));
  }

  /** The figures of a draft that wrote none but budget and actual cost are backed. */
  lemma PromptedFiguresBacked(s: Snapshot, ctx: OdooCtx, rows: seq<Evidence>, ids: set<string>)
    requires PromptedOnly(s)
    ensures FiguresBacked(DraftFigures(s, ctx, rows, ids), ids)
  {
    assert forall fig :: fig != Budget && fig != ActualCost ==> s.At(fig) == NOT_AVAILABLE;
    ExtractedIsBacked(ContractValue, ctx, rows, ids);
    ExtractedIsBacked(Estimate, ctx, rows, ids);
    ExtractedIsBacked(PayrollCost, ctx, rows, ids);
    ExtractedIsBacked(ExpenseCost, ctx, rows, ids);
    ExtractedIsBacked(CommittedCost, ctx, rows, ids);
  }

  lemma BackedFiguresCite(f: Figures, before: Option<Variance>, ids: set<string>)
    requires FiguresBacked(f, ids) && VarianceKnown(before, ids)
    ensures FiguresCite(f, before, ids)
  {
    assert forall n :: NodeBacked(n, ids) ==> Known(n, ids);
  }

  /** They cite known ids. */
  lemma PromptedFiguresCite(req: Request, d: Report)
    requires PromptedOnly(d.snapshot)
    ensures FiguresCite(FiguresFor(req, d), d.snapshot.variance, IdsOf(req.pack))
  {
    PromptedFiguresBacked(d.snapshot, PackContext(req), OdooRows(req.pack), IdsOf(req.pack));
    BackedFiguresCite(FiguresFor(req, d), d.snapshot.variance, IdsOf(req.pack));
  }

  /**
    Whatever else a draft holds, when its claims cite flat lists and the node produces a report from
    it, every claim of that report cites retrieved evidence only. Sections may be missing or no
    lists, items no objects, texts no strings. Of the snapshot nothing is asked, unless the report
    is financial: then the draft wrote no figure beyond budget and actual cost, and no variance.
  */
  lemma FlatDraftsEndGrounded(norm: string -> string, req: Request, draft: Option<Report>)
    requires draft.Some? ==> FlatCitations(draft.value)
    requires draft.Some? && req.kind.FinancialReport? ==> PromptedOnly(draft.value.snapshot)
    requires req.kind.SalaryReport? && !req.salaryEvidence ==> SalaryCitations(req.pack) != []
    requires Run(norm, req, draft).Some?
    ensures Grounded(Run(norm, req, draft).value, IdsOf(req.pack))
  {
    FinalReportIsGroundedIff(norm, req, draft);
    if draft.Some? {
      if req.kind.FinancialReport? {
        PromptedFiguresCite(req, draft.value);
      }
      FlatLeading(draft.value);
      FlatBringsNoCharacters(Leading(draft.value), IdsOf(req.pack));
    }
  }

  // ---------------------------------------------------------------------------------------------
  // Drafts of the shape the prompt asks for
  // ---------------------------------------------------------------------------------------------

  /** No figure beyond budget and actual cost, no variance and nothing cited for it, amounts numbers and ids strings. */
  ghost predicate PromptedSnapshot(s: Snapshot) {
    PromptedOnly(s) && WellTyped(s) && (s.variance.Some? ==> s.variance.value.eids == [])
  }

  /** Every claim and every part of the answer has a text, and no section holds a number or null. */
  ghost predicate Readable(r: Report) {
    && r.answer.Measurable() && Enrichable(r.answer) && (forall s :: s in r.sections ==> !r.sections[s].Scalar?)
    && forall s, i :: 0 <= i < |r.Claims(s)| && r.Claims(s)[i].Claim? ==> !r.Claims(s)[i].wording.NotText?
  }

  /** The findings from which a summary may be written are objects. */
  ghost predicate LeadsWithClaims(r: Report) {
    forall i :: 0 <= i < |Leading(r)| ==> Leading(r)[i].Claim?
  }

  /** Flat citations, texts that are texts, and a snapshot without figures of the draft's own making. */
  ghost predicate Prompted(draft: Report) {
    FlatCitations(draft) && Readable(draft) && LeadsWithClaims(draft) && PromptedSnapshot(draft.snapshot)
  }

  lemma {:induction false} TextsAreExamined(items: seq<Item>, synth: map<string, string>, ids: set<string>)
    requires forall i :: 0 <= i < |items| && items[i].Claim? ==> !items[i].wording.NotText?
    ensures ItemsVerdict(items, synth, ids) != Raised
  {
    if items != [] { TextsAreExamined(items[..|items| - 1], synth, ids); }
  }

  lemma {:induction false} ReadableIsExamined(r: Report, sections: seq<Section>, synth: map<string, string>,
                                              ids: set<string>)
    requires Readable(r)
    ensures SectionsVerdict(r, sections, synth, ids) != Raised
  {
    if sections != [] {
      var n := |sections| - 1;
      ReadableIsExamined(r, sections[..n], synth, ids);
      TextsAreExamined(r.Claims(sections[n]), synth, ids);
    }
  }

  lemma PromptedFirstPass(req: Request, s: Snapshot)
    requires PromptedSnapshot(s)
    ensures
      var t := FromOdoo(s, PackContext(req), IdsOf(req.pack));
      && !FirstPassRaises(s, PackContext(req), IdsOf(req.pack))
      && Tame(t, IdsOf(req.pack)) && t.At(Budget) == NOT_AVAILABLE
  {
    assert forall f :: f != Budget && f != ActualCost ==> s.At(f) == NOT_AVAILABLE;
    FirstPassStaysTame(s, PackContext(req), OdooRows(req.pack), IdsOf(req.pack));
  }

  lemma PromptedFiguresAreTame(req: Request, d: Report)
    requires PromptedSnapshot(d.snapshot)
    ensures TameFigures(FiguresFor(req, d), IdsOf(req.pack)) && !FiguresFor(req, d).Raises()
    ensures !FiguresUnwritable(FiguresFor(req, d), d.snapshot.variance)
    ensures !FiguresFor(req, d).actual.eid.Several?
  {
    var ctx, rows, ids := PackContext(req), OdooRows(req.pack), IdsOf(req.pack);
    PromptedFirstPass(req, d.snapshot);
    FirstPassIs(d.snapshot, ctx, rows, ids);
    FiguresAreTame(FromOdoo(d.snapshot, ctx, ids), ctx, rows, ids);
    TameNeverRaises(FiguresFor(req, d), ids);
    assert FiguresFor(req, d).Nodes()[2] == FiguresFor(req, d).actual;
  }

  lemma {:induction false} TameRefs(nodes: seq<Node>)
    requires forall i :: 0 <= i < |nodes| ==> !nodes[i].eid.Several?
    ensures forall i :: 0 <= i < |RefsOfNodes(nodes)| ==> !RefsOfNodes(nodes)[i].Several?
  {
    if nodes != [] { TameRefs(nodes[..|nodes| - 1]); }
  }

  /** The node never raises on a prompted draft. */
  lemma PromptedDraftsProceed(norm: string -> string, req: Request, draft: Option<Report>)
    requires draft.Some? ==> Prompted(draft.value)
    ensures Run(norm, req, draft).Some?
  {
    ReportIsProducedIff(norm, req, draft);
    if draft.Some? {
      var d, ids := draft.value, IdsOf(req.pack);
      PromptedFirstPass(req, d.snapshot);
      PromptedFiguresAreTame(req, d);
      TameRefs(FiguresFor(req, d).Nodes());
      ReadableIsExamined(d, SECTIONS, Renames(norm, req, d), ids);
      FlatLeading(d);
      FlatBringsNoCharacters(Leading(d), ids);
    }
  }

  // ---------------------------------------------------------------------------------------------
  // Flat citations and backed figures to the end
  // ---------------------------------------------------------------------------------------------

  lemma FlatReportHasFlatCitations(r: Report)
    requires FlatReport(r)
    ensures FlatCitations(r)
  {
    forall s
      ensures FlatClaims(r.Claims(s))
    {
      assert FlatItems(r.Claims(s));
    }
  }

  lemma RemapKeepsFlatCitations(norm: string -> string, r: Report, pack: seq<Evidence>)
    requires FlatCitations(r) && Remap(norm, r, pack).Some?
    ensures FlatCitations(Remap(norm, r, pack).value) && Remap(norm, r, pack).value.snapshot == r.snapshot
  {
    var synth, after := Synthetic(norm, r.sources, pack), Remap(norm, r, pack).value;
    forall s
      ensures FlatClaims(after.Claims(s))
    {
      assert FlatClaims(r.Claims(s));
      if synth != map[] {
        assert after.Claims(s) == RemapItems(synth, r.Claims(s));
      }
    }
  }

  lemma ForcedKeepsFlatCitations(r: Report, ctx: OdooCtx, known: set<string>)
    requires FlatCitations(r) && Tame(r.snapshot, known)
    ensures FlatCitations(Force(r, ctx))
  {
    SummaryItemsAreFlat(ctx, []);
    FindingItemsAreFlat(r.snapshot, ctx);
    forall s
      ensures FlatClaims(Force(r, ctx).Claims(s))
    {
      ForcedSection(r, ctx, s);
      assert FlatClaims(r.Claims(s));
    }
  }

  lemma SummaryKeepsFlatCitations(r: Report, pack: seq<Evidence>)
    requires FlatCitations(r) && SummaryEnforced(r, pack).Some?
    ensures FlatCitations(SummaryEnforced(r, pack).value) && SummaryEnforced(r, pack).value.snapshot == r.snapshot
  {
    var final := SummaryEnforced(r, pack).value;
    forall s
      ensures FlatClaims(final.Claims(s))
    {
      assert FlatClaims(r.Claims(s));
    }
  }

  lemma SettlingKeeps(norm: string -> string, req: Request, r: Report)
    requires FlatCitations(r) && Tame(r.snapshot, IdsOf(req.pack)) && Settled(norm, req, r).Some?
    ensures
      var final := Settled(norm, req, r).value;
      FlatCitations(final) && Tame(final.snapshot, IdsOf(req.pack))
  {
    var e := SnapshotEnforced(req, r);
    EnforcementStaysTame(r.snapshot, PackContext(req), OdooRows(req.pack), IdsOf(req.pack));
    assert FlatCitations(e) by {
      forall s
        ensures FlatClaims(e.Claims(s))
      {
        assert e.Claims(s) == r.Claims(s) && FlatClaims(r.Claims(s));
      }
    }
    ForcedKeepsFlatCitations(e, PackContext(req), IdsOf(req.pack));
    LaterStepsKeep(norm, req, Synthesised(req, r));
  }

  /** The corrections keep citations flat, and figures backed. */
  lemma CorrectionsKeep(norm: string -> string, req: Request, r: Report)
    requires FlatCitations(r) && Tame(r.snapshot, IdsOf(req.pack)) && Corrected(norm, req, r).Some?
    ensures
      var final := Corrected(norm, req, r).value;
      FlatCitations(final) && Tame(final.snapshot, IdsOf(req.pack))
  {
    CorrectedIs(norm, req, r);
    SettlingKeeps(norm, req, r);
    var settled, final := Settled(norm, req, r).value, Corrected(norm, req, r).value;
    forall s
      ensures FlatClaims(final.Claims(s))
    {
      assert final.Claims(s) == settled.Claims(s) && FlatClaims(settled.Claims(s));
    }
  }

  lemma LaterStepsKeep(norm: string -> string, req: Request, f: Report)
    requires FlatCitations(f) && Remap(norm, f, req.pack).Some?
    requires SummaryEnforced(Resourced(req, Remap(norm, f, req.pack).value), req.pack).Some?
    ensures
      var final := SummaryEnforced(Resourced(req, Remap(norm, f, req.pack).value), req.pack).value;
      FlatCitations(final) && final.snapshot == f.snapshot
  {
    RemapKeepsFlatCitations(norm, f, req.pack);
    var m := Remap(norm, f, req.pack).value;
    assert FlatCitations(Resourced(req, m)) by {
      forall s
        ensures FlatClaims(Resourced(req, m).Claims(s))
      {
        assert Resourced(req, m).Claims(s) == m.Claims(s) && FlatClaims(m.Claims(s));
      }
    }
    SummaryKeepsFlatCitations(Resourced(req, m), req.pack);
  }

  /** What reaches the corrections has flat citations and backed figures. */
  lemma PromptedIsNormalised(norm: string -> string, req: Request, draft: Option<Report>)
    requires draft.Some? ==> Prompted(draft.value)
    requires Normalised(norm, req, draft).Some?
    ensures
      var r := Normalised(norm, req, draft).value;
      FlatCitations(r) && Tame(r.snapshot, IdsOf(req.pack))
  {
    BuiltIsSound(req);
    FlatReportHasFlatCitations(Build(req));
    BuiltSnapshotIsTame(req);
    if draft.Some? {
      PromptedIsPrepared(norm, req, draft.value);
    }
  }

  lemma PromptedIsPrepared(norm: string -> string, req: Request, d: Report)
    requires Prompted(d) && Prepared(norm, req, d).Some?
    ensures FlatCitations(Prepared(norm, req, d).value) && Tame(Prepared(norm, req, d).value.snapshot, IdsOf(req.pack))
  {
    PromptedFirstPass(req, d.snapshot);
    var entered := d.(snapshot := FromOdoo(d.snapshot, PackContext(req), IdsOf(req.pack)));
    assert FlatCitations(entered) by {
      forall s
        ensures FlatClaims(entered.Claims(s))
      {
        assert entered.Claims(s) == d.Claims(s) && FlatClaims(d.Claims(s));
      }
    }
    RemapKeepsFlatCitations(norm, entered, req.pack);
  }

  lemma SalaryIsFlat(pack: seq<Evidence>)
    ensures FlatReport(SalaryAvailability(pack)) && Tame(SalaryAvailability(pack).snapshot, IdsOf(pack))
  {
    var r := SalaryAvailability(pack);
    forall s
      ensures s in r.sections && r.sections[s].Items? && FlatItems(r.Claims(s))
    {
      match s
      case ExecutiveSummary => case KeyFindings => case RootCauses =>
      case DelayAnalysis => case ContractualImplications => case RecommendedActions =>
    }
    EmptySnapshotIsTame(r.snapshot, IdsOf(pack));
  }

  lemma EmptySnapshotIsTame(s: Snapshot, ids: set<string>)
    requires s == Snapshot(map[Budget := NOT_AVAILABLE, ActualCost := NOT_AVAILABLE], Some(Variance(Null, None, [])))
    ensures Tame(s, ids)
  {
    assert forall f :: s.At(f) == NOT_AVAILABLE;
  }

  /**
    For every draft of the prompted shape, and for every unreadable one, the node produces a report
    whose every claim cites retrieved evidence only, in flat lists, and whose every available
    figure and variance is backed, whether the draft was accepted or rebuilt. The one exception is a
    salary report over a pack that offers nothing to cite.
  */
  lemma PromptedDraftsEndGrounded(norm: string -> string, req: Request, draft: Option<Report>)
    requires draft.Some? ==> Prompted(draft.value)
    requires req.kind.SalaryReport? && !req.salaryEvidence ==> SalaryCitations(req.pack) != []
    ensures
      var final := Run(norm, req, draft);
      && final.Some? && FlatCitations(final.value) && Grounded(final.value, IdsOf(req.pack))
      && Tame(final.value.snapshot, IdsOf(req.pack))
  {
    PromptedDraftsProceed(norm, req, draft);
    FlatDraftsEndGrounded(norm, req, draft);
    if req.kind.SalaryReport? && !req.salaryEvidence {
      SalaryIsFlat(req.pack);
      FlatReportHasFlatCitations(SalaryAvailability(req.pack));
    } else {
      PromptedIsNormalised(norm, req, draft);
      CorrectionsKeep(norm, req, Normalised(norm, req, draft).value);
    }
  }

  /** Such a report passes the gate's checks of claims and figures, when every evidence item has an id. */
  lemma PromptedDraftsPassTheGate(norm: string -> string, req: Request, draft: Option<Report>)
    requires draft.Some? ==> Prompted(draft.value)
    requires req.kind.SalaryReport? && !req.salaryEvidence ==> SalaryCitations(req.pack) != []
    requires "" !in IdsOf(req.pack)
    ensures
      var final := Run(norm, req, draft);
      && final.Some? && GateSupportsAll(final.value, IdsOf(req.pack))
      && GateAcceptsFigures(final.value.snapshot, IdsOf(req.pack))
  {
    PromptedDraftsEndGrounded(norm, req, draft);
    var final := Run(norm, req, draft).value;
    FlatAndGroundedIsSupported(final, IdsOf(req.pack));
    forall f
      ensures GateAcceptsNode(final.snapshot.At(f), IdsOf(req.pack))
    {
      assert NodeBacked(final.snapshot.At(f), IdsOf(req.pack));
    }
  }
}
