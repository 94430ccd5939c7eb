/** The deterministic report: it cites retrieved evidence only, in flat lists, and nothing raises on it. */
module BuiltLaws {
  import opened Wrappers
  import opened Finance
  import opened FinanceLaws
  import opened Citations
  import opened CitationLaws
  import opened Drafting
  import opened DraftingLaws
  import opened QuotationLaws

  // ---------------------------------------------------------------------------------------------
  // Flat pieces
  // ---------------------------------------------------------------------------------------------

  lemma CitingIsFlat(ids: seq<string>)
    ensures FlatItems([Citing(ids)])
  {}

  lemma SummaryItemsAreFlat(ctx: OdooCtx, documents: seq<Evidence>)
    ensures FlatItems(BasicSummary(ctx, documents))
  {
    CitingIsFlat(Take(Distinct(FinancialIds(ctx)), 5));
    CitingIsFlat(NonBlankIds(Take(documents, 3)));
    CitingIsFlat(Take(Distinct(NonBlankIds(ctx.projectRecords)), 3));
  }

  lemma FlatConcat(a: seq<Item>, b: seq<Item>)
    requires FlatItems(a) && FlatItems(b)
    ensures FlatItems(a + b)
  {}

  lemma FlatTake(items: seq<Item>, n: nat)
    requires FlatItems(items)
    ensures FlatItems(Take(items, n))
  {}

  lemma RefClaimsAreFlat(refs: seq<Ref>)
    requires forall i :: 0 <= i < |refs| ==> !refs[i].Several?
    ensures FlatItems(RefClaims(refs))
  {
    forall i | 0 <= i < |refs|
      ensures FlatItem(RefClaims(refs)[i])
    {
      CitingIsFlat(refs[i].Ids());
    }
  }

  lemma VarianceFindingIsFlat(s: Snapshot)
    ensures FlatItems(VarianceFinding(s))
  {
    if s.variance.Some? {
      CitingIsFlat(s.variance.value.eids);
    }
    CitingIsFlat(Take(Distinct(AllIds(ShownRefs(s, LABELLED_FIGS))), 2));
  }

  lemma {:induction false} ShownRefsOf(s: Snapshot, figs: seq<Fig>)
    requires forall f :: f in figs ==> !s.At(f).eid.Several?
    ensures forall i :: 0 <= i < |ShownRefs(s, figs)| ==> !ShownRefs(s, figs)[i].Several?
  {
    if figs != [] {
      ShownRefsOf(s, figs[..|figs| - 1]);
      assert figs[|figs| - 1] in figs;
    }
  }

  /** Findings are flat when no figure lists its ids. */
  lemma FindingItemsAreFlat(s: Snapshot, ctx: OdooCtx)
    requires forall f :: !s.At(f).eid.Several?
    ensures FlatItems(SnapshotFindings(s, ctx))
  {
    var shown := ShownRefs(s, LABELLED_FIGS);
    ShownRefsOf(s, LABELLED_FIGS);
    RefClaimsAreFlat(shown);
    VarianceFindingIsFlat(s);
    FlatConcat(RefClaims(shown), VarianceFinding(s));
    CitingIsFlat(Take(Distinct(NonBlankIds(ctx.projectRecords)), 2));
    FlatTake(RefClaims(shown) + VarianceFinding(s), 8);
  }

  lemma {:induction false} TopicClaimsAreGrounded(documents: seq<Evidence>, topic: Topic, known: set<string>)
    requires IdsOf(documents) <= known
    ensures ItemsGrounded(TopicClaims(documents, topic), known) && FlatItems(TopicClaims(documents, topic))
  {
    if documents != [] {
      var n := |documents| - 1;
      assert IdsOf(documents[..n]) <= IdsOf(documents);
      TopicClaimsAreGrounded(documents[..n], topic, known);
      assert documents[n] in documents;
      CitingIsGrounded([documents[n].id], known);
      GroundedConcat(TopicClaims(documents[..n], topic), [Citing([documents[n].id])], known);
    }
  }

  // ---------------------------------------------------------------------------------------------
  // Snapshots on which nothing raises
  // ---------------------------------------------------------------------------------------------

  /** Amounts are numbers, ids are strings, and what is available or cited for the variance is known. */
  ghost predicate Tame(s: Snapshot, known: set<string>) {
    && WellTyped(s) && AllBacked(s, known)
    && (s.variance.Some? ==> AllIn(s.variance.value.eids, known))
  }

  lemma ExtractedIsTame(fig: Fig, t: Snapshot, ctx: OdooCtx, rows: seq<Evidence>, ids: set<string>)
    requires Tame(t, ids)
    ensures
      var n := Filled(Extracted(fig, ctx, rows, ids), t.At(fig));
      !n.value.Text? && !n.eid.Several? && NodeBacked(n, ids)
  {
    ExtractedIsBacked(fig, ctx, rows, ids);
    assert NodeBacked(t.At(fig), ids);
  }

  /** Tame figures, and what is worked out from them. */
  ghost predicate TameFigures(f: Figures, ids: set<string>) {
    forall i :: 0 <= i < |f.Nodes()| ==>
      !f.Nodes()[i].value.Text? && !f.Nodes()[i].eid.Several? && NodeBacked(f.Nodes()[i], ids)
  }

  lemma FiguresAreTame(t: Snapshot, ctx: OdooCtx, rows: seq<Evidence>, ids: set<string>)
    requires Tame(t, ids)
    ensures TameFigures(FiguresOf(t, ctx, rows, ids), ids)
  {
    ExtractedIsTame(ContractValue, t, ctx, rows, ids);
    ExtractedIsTame(Estimate, t, ctx, rows, ids);
    ExtractedIsTame(PayrollCost, t, ctx, rows, ids);
    ExtractedIsTame(ExpenseCost, t, ctx, rows, ids);
    ExtractedIsTame(CommittedCost, t, ctx, rows, ids);
    assert NodeBacked(t.At(ActualCost), ids) && NodeBacked(t.At(TotalIncurred), ids);
  }

  lemma TameVariance(f: Figures, before: Option<Variance>, ids: set<string>)
    requires TameFigures(f, ids) && (before.Some? ==> AllIn(before.value.eids, ids) && !before.value.value.Text?)
    ensures AllIn(f.VarianceAfter(before).eids, ids) && !f.VarianceAfter(before).value.Text?
  {
    if f.Measurable() {
      assert f.Nodes()[1] == f.estimate && f.Nodes()[2] == f.actual && f.Nodes()[6] == f.Incurred();
      assert NodeBacked(f.estimate, ids) && NodeBacked(f.SpentNode(), ids);
      assert AllIn(f.estimate.eid.Ids(), ids) && AllIn(f.SpentNode().eid.Ids(), ids);
      AllInConcat(f.estimate.eid.Ids(), f.SpentNode().eid.Ids(), ids);
    }
  }

  lemma WorkedOutIsTame(e: Snapshot, f: Figures, before: Option<Variance>, ids: set<string>)
    requires WorkedOut(e, f, before) && TameFigures(f, ids) && e.At(Budget) == NOT_AVAILABLE
    requires before.Some? ==> AllIn(before.value.eids, ids) && !before.value.value.Text?
    ensures Tame(e, ids) && !FindingsRaise(e)
  {
    TameVariance(f, before, ids);
    LabelledNodes(e, f, before);
    forall fig: Fig
      ensures !e.At(fig).value.Text? && !e.At(fig).eid.Several? && NodeBacked(e.At(fig), ids)
    {
      match fig
      case Budget =>
      case ContractValue => assert e.At(fig) == f.Nodes()[0];
      case Estimate => assert e.At(fig) == f.Nodes()[1];
      case ActualCost => assert e.At(fig) == f.Nodes()[2];
      case PayrollCost => assert e.At(fig) == f.Nodes()[3];
      case ExpenseCost => assert e.At(fig) == f.Nodes()[4];
      case CommittedCost => assert e.At(fig) == f.Nodes()[5];
      case TotalIncurred => assert e.At(fig) == f.Nodes()[6];
    }
  }

  lemma TameNeverRaises(f: Figures, ids: set<string>)
    requires TameFigures(f, ids)
    ensures !f.Raises()
  {
    assert f.Nodes()[1] == f.estimate && f.Nodes()[2] == f.actual && f.Nodes()[3] == f.payroll
        && f.Nodes()[4] == f.expense;
  }

  /** The second pass keeps a tame snapshot tame, and does not raise. */
  lemma CategoriesStayTame(t: Snapshot, ctx: OdooCtx, rows: seq<Evidence>, ids: set<string>)
    requires Tame(t, ids) && t.At(Budget) == NOT_AVAILABLE
    ensures !SecondPassRaises(t, ctx, rows, ids)
    ensures
      var e := Categories(t, ctx, rows, ids);
      Tame(e, ids) && !FindingsRaise(e) && e.At(Budget) == NOT_AVAILABLE
  {
    var f := FiguresOf(t, ctx, rows, ids);
    FiguresAreTame(t, ctx, rows, ids);
    CategoriesAre(t, ctx, rows, ids);
    TameNeverRaises(f, ids);
    WorkedOutIsTame(Categories(t, ctx, rows, ids), f, t.variance, ids);
  }

  /** So do both passes. */
  lemma EnforcementStaysTame(s: Snapshot, ctx: OdooCtx, rows: seq<Evidence>, ids: set<string>)
    requires Tame(s, ids)
    ensures !EnforcementRaises(s, ctx, rows, ids)
    ensures
      var e := Enforced(s, ctx, rows, ids);
      Tame(e, ids) && !FindingsRaise(e)
  {
    FirstPassStaysTame(s, ctx, rows, ids);
    CategoriesStayTame(FromOdoo(s, ctx, ids), ctx, rows, ids);
  }

  /** The first pass makes a well-typed snapshot tame, when its other figures and its variance are. */
  lemma FirstPassStaysTame(s: Snapshot, ctx: OdooCtx, rows: seq<Evidence>, ids: set<string>)
    requires WellTyped(s) && (s.variance.Some? ==> AllIn(s.variance.value.eids, ids))
    requires forall f :: f != Budget && f != ActualCost ==> NodeBacked(s.At(f), ids)
    ensures !FirstPassRaises(s, ctx, ids)
    ensures Tame(FromOdoo(s, ctx, ids), ids) && FromOdoo(s, ctx, ids).At(Budget) == NOT_AVAILABLE
  {
    var t := FromOdoo(s, ctx, ids);
    FirstPassIs(s, ctx, rows, ids);
    if ActualCost in s.nodes {
      assert s.nodes[ActualCost] == s.At(ActualCost);
      ActualIsTame(s.nodes[ActualCost], ctx, ids);
    }
    forall f: Fig
      ensures !t.At(f).value.Text? && !t.At(f).eid.Several? && NodeBacked(t.At(f), ids)
    {
      if f != Budget && f != ActualCost {
        assert t.At(f) == s.At(f);
      }
    }
  }

  lemma ActualIsTame(n: Node, ctx: OdooCtx, ids: set<string>)
    requires !n.value.Text? && !n.eid.Several?
    ensures
      var a := EnforcedActual(n, ctx, ids);
      !a.value.Text? && !a.eid.Several? && NodeBacked(a, ids)
  {}

  lemma TameInMore(s: Snapshot, some: set<string>, all: set<string>)
    requires Tame(s, some) && some <= all
    ensures Tame(s, all)
  {
    forall f
      ensures NodeBacked(s.At(f), all)
    {
      assert NodeBacked(s.At(f), some);
    }
  }

  lemma TameCitesKnown(s: Snapshot, ids: set<string>)
    requires Tame(s, ids)
    ensures CitesKnown(s, ids)
  {
    forall f | f in LABELLED_FIGS
      ensures Known(s.At(f), ids)
    {
      assert NodeBacked(s.At(f), ids);
    }
  }

  // ---------------------------------------------------------------------------------------------
  // The deterministic report
  // ---------------------------------------------------------------------------------------------

  lemma IdsOfPart(items: seq<Evidence>, pack: seq<Evidence>)
    requires From(items, pack)
    ensures IdsOf(items) <= IdsOf(pack)
  {}

  /** The rows and documents a rebuilt report uses are part of the pack. */
  lemma BuiltParts(req: Request)
    ensures
      var rows, documents := OdooRows(Usable(req)), Documents(Usable(req));
      && IdsOf(Usable(req)) <= IdsOf(req.pack)
      && IdsOf(rows) <= IdsOf(Usable(req)) && IdsOf(documents) <= IdsOf(Usable(req))
  {
    UsableIsFromPack(req);
    PackParts(Usable(req));
    IdsOfPart(Usable(req), req.pack);
    IdsOfPart(OdooRows(Usable(req)), Usable(req));
    IdsOfPart(Documents(Usable(req)), Usable(req));
  }

  lemma InitialSnapshotIsTame(req: Request, rows: seq<Evidence>, ids: set<string>)
    requires IdsOf(rows) <= ids
    ensures Tame(InitialSnapshot(req, ContextOf(rows)), ids)
                && InitialSnapshot(req, ContextOf(rows)).At(Budget) == NOT_AVAILABLE
  {
    var s := InitialSnapshot(req, ContextOf(rows));
    BestIsARow(rows);
    forall f: Fig
      ensures !s.At(f).value.Text? && !s.At(f).eid.Several? && NodeBacked(s.At(f), ids)
    {
      if f != ActualCost {
        assert s.At(f) == NOT_AVAILABLE;
      }
    }
  }

  /** The builder's second pass does not raise, and leaves a snapshot on which nothing does. */
  lemma BuiltSnapshotIsTame(req: Request)
    ensures
      var rows, ids := OdooRows(Usable(req)), IdsOf(Usable(req));
      && !SecondPassRaises(InitialSnapshot(req, ContextOf(rows)), ContextOf(rows), rows, ids)
      && !FindingsRaise(Build(req).snapshot) && Tame(Build(req).snapshot, IdsOf(req.pack))
  {
    var rows, ids := OdooRows(Usable(req)), IdsOf(Usable(req));
    BuiltParts(req);
    InitialSnapshotIsTame(req, rows, ids);
    CategoriesStayTame(InitialSnapshot(req, ContextOf(rows)), ContextOf(rows), rows, ids);
    TameInMore(Build(req).snapshot, ids, IdsOf(req.pack));
  }

  ghost predicate Sound(r: Report, known: set<string>) {
    FlatReport(r) && Grounded(r, known)
  }

  /** What forcing leaves in each section. */
  lemma ForcedSection(r: Report, ctx: OdooCtx, s: Section)
    ensures Force(r, ctx).Claims(s) ==
      match s
      case KeyFindings => SnapshotFindings(r.snapshot, ctx)
      case ExecutiveSummary => if ForcedSummary(ctx).Some? then BasicSummary(ctx, []) else r.Claims(s)
      case RecommendedActions => r.Claims(s)
      case _ => []
  {
    ForcedSectionsAt(r.sections, SnapshotFindings(r.snapshot, ctx), ForcedSummary(ctx), s);
  }

  lemma ForcedSectionsAt(sections: map<Section, SectionValue>, findings: seq<Item>, summary: Option<seq<Item>>,
                         s: Section)
    ensures
      var forced := ForcedSections(sections, findings, summary);
      match s
      case KeyFindings => s in forced && forced[s] == Items(findings)
      case ExecutiveSummary =>
        if summary.Some? then s in forced && forced[s] == Items(summary.value)
        else (s in forced <==> s in sections) && (s in forced ==> forced[s] == sections[s])
      case RecommendedActions => (s in forced <==> s in sections) && (s in forced ==> forced[s] == sections[s])
      case _ => s in forced && forced[s] == Items([])
  {}

  lemma ForcedIsSound(r: Report, ctx: OdooCtx, known: set<string>)
    requires Sound(r, known) && ContextKnown(ctx, known) && Tame(r.snapshot, known)
    ensures Sound(Force(r, ctx), known)
  {
    TameCitesKnown(r.snapshot, known);
    FindingsGroundedIff(r.snapshot, ctx, known);
    BasicSummaryIsGrounded(ctx, [], known);
    SummaryItemsAreFlat(ctx, []);
    FindingItemsAreFlat(r.snapshot, ctx);
    ForcedIsLists(r, ctx);
    var f := Force(r, ctx);
    forall s
      ensures ItemsGrounded(f.Claims(s), known) && FlatItems(f.Claims(s))
    {
      ForcedSection(r, ctx, s);
      assert ItemsGrounded(r.Claims(s), known) && FlatItems(r.Claims(s));
    }
  }

  lemma ForcedIsLists(r: Report, ctx: OdooCtx)
    requires AllLists(r)
    ensures AllLists(Force(r, ctx))
  {
    forall s: Section
      ensures s in Force(r, ctx).sections && Force(r, ctx).sections[s].Items?
    {
      ForcedSectionsAt(r.sections, SnapshotFindings(r.snapshot, ctx), ForcedSummary(ctx), s);
    }
  }

  lemma BuiltSectionsAreSound(req: Request, ctx: OdooCtx, documents: seq<Evidence>, snapshot: Snapshot,
                              sources: seq<SourceEntry>, known: set<string>)
    requires ContextKnown(ctx, known) && IdsOf(documents) <= known
    ensures Sound(Report(BuiltSections(req, ctx, documents), snapshot, sources, UNAVAILABLE_ANSWER), known)
  {
    var r := Report(BuiltSections(req, ctx, documents), snapshot, sources, UNAVAILABLE_ANSWER);
    var findings := if req.kind.FinancialReport? then [] else documents;
    BasicSummaryIsGrounded(ctx, documents, known);
    SummaryItemsAreFlat(ctx, documents);
    TopicClaimsAreGrounded(findings, GeneralTopic, known);
    TopicClaimsAreGrounded(findings, DelayTopic, known);
    TopicClaimsAreGrounded(findings, ContractTopic, known);
    forall s
      ensures s in r.sections && r.sections[s].Items?
      ensures ItemsGrounded(r.Claims(s), known) && FlatItems(r.Claims(s))
    {
      match s
      case ExecutiveSummary => case KeyFindings => case RootCauses =>
      case DelayAnalysis => case ContractualImplications => case RecommendedActions =>
    }
  }

  /** A rebuilt report is flat, and every claim of it cites retrieved evidence only. */
  lemma BuiltIsSound(req: Request)
    ensures Sound(Build(req), IdsOf(req.pack))
  {
    var rows, documents := OdooRows(Usable(req)), Documents(Usable(req));
    var ctx, known := ContextOf(rows), IdsOf(req.pack);
    var snapshot := Categories(InitialSnapshot(req, ctx), ctx, rows, IdsOf(Usable(req)));
    var sources := NumberedSources(documents + rows);
    BuiltParts(req);
    BuiltSnapshotIsTame(req);
    ContextIsKnown(rows, known);
    BuiltSectionsAreSound(req, ctx, documents, snapshot, sources, known);
    if req.kind.FinancialReport? {
      ForcedIsSound(Report(BuiltSections(req, ctx, documents), snapshot, sources, UNAVAILABLE_ANSWER), ctx, known);
    }
  }
}
