/**
  The deterministic report once corrected: its snapshot tells what the pack holds and nothing else, so
  that the rights of the caller change no report.
*/
module RebuiltLaws {
  import opened Wrappers
  import opened Finance
  import opened FinanceLaws
  import opened Citations
  import opened CitationLaws
  import opened Drafting
  import opened DraftingLaws
  import opened BuiltLaws
  import opened GroundingLaws

  // ---------------------------------------------------------------------------------------------
  // The snapshot of the deterministic report
  // ---------------------------------------------------------------------------------------------

  /** A snapshot that claims nothing. */
  const BLANK_SNAPSHOT :=
    Snapshot(map[Budget := NOT_AVAILABLE, ActualCost := NOT_AVAILABLE], Some(Variance(Null, None, [])))

  lemma {:induction false} TallySame(rows: seq<Evidence>, categories: set<Category>, fields: seq<Field>,
                                     a: set<string>, b: set<string>)
    requires IdsOf(rows) <= a && IdsOf(rows) <= b
    ensures TallyOf(rows, categories, fields, Some(a)) == TallyOf(rows, categories, fields, Some(b))
  {
    if rows != [] {
      PackSnoc(rows);
      TallySame(rows[..|rows| - 1], categories, fields, a, b);
    }
  }

  /** What is extracted from rows of the pack does not depend on the rest of the pack. */
  lemma ExtractedSame(fig: Fig, rows: seq<Evidence>, a: set<string>, b: set<string>)
    requires IdsOf(rows) <= a && IdsOf(rows) <= b
    ensures Extracted(fig, ContextOf(rows), rows, a) == Extracted(fig, ContextOf(rows), rows, b)
  {
    TallySame(rows, COMMITTED_CATEGORIES, COMMITTED_FIELDS, a, b);
    ContextIsKnown(rows, IdsOf(rows));
  }

  lemma FilterSnoc(front: seq<Evidence>, last: Evidence, keep: Evidence -> bool)
    ensures Filter(front + [last], keep) == Filter(front, keep) + (if keep(last) then [last] else [])
  {
    assert (front + [last])[..|front|] == front;
  }

  lemma {:induction false} FilterTwice(pack: seq<Evidence>, keep: Evidence -> bool, some: Evidence -> bool)
    requires forall e :: some(e) ==> keep(e)
    ensures Filter(Filter(pack, keep), some) == Filter(pack, some)
  {
    if pack != [] {
      var n := |pack| - 1;
      FilterTwice(pack[..n], keep, some);
      FilterSnoc(Filter(pack[..n], keep), pack[n], some);
      assert Filter(pack, keep) == Filter(pack[..n], keep) + (if keep(pack[n]) then [pack[n]] else []);
      assert Filter(pack[..n], keep) + [] == Filter(pack[..n], keep);
      assert Filter(pack[..n], some) + [] == Filter(pack[..n], some);
    }
  }

  /** The builder looks at the same Odoo rows as the corrections. */
  lemma SameRows(req: Request)
    ensures OdooRows(Usable(req)) == OdooRows(req.pack)
  {
    FilterTwice(req.pack, (e: Evidence) => e.sourceType.Odoo? || e.financial, (e: Evidence) => e.sourceType.Odoo?);
  }

  /** Figures that lead to the same total and variance. */
  ghost predicate SameOutcome(f: Figures, g: Figures, before: Option<Variance>, other: Option<Variance>) {
    f.(total := g.total) == g && f.Incurred() == g.Incurred() && f.VarianceAfter(before) == g.VarianceAfter(other)
  }

  /** What the builder enters as the actual cost is what the first pass enters, or nothing. */
  lemma BuiltActual(rows: seq<Evidence>, n: Node, ids: set<string>)
    requires IdsOf(rows) <= ids && (n == NOT_AVAILABLE || ContextOf(rows).hasAmount)
    ensures
      var a := EnforcedActual(n, ContextOf(rows), ids);
      && a == EnforcedActual(NOT_AVAILABLE, ContextOf(rows), ids)
      && (if ContextOf(rows).hasAmount then a.Counted() else a == NOT_AVAILABLE)
  {
    if ContextOf(rows).hasAmount { CostIdIsKnown(rows, ids); }
  }

  /** The builder's figures, and the blank snapshot's, after the corrections. */
  lemma BuiltOutcome(s0: Snapshot, rows: seq<Evidence>, some: set<string>, ids: set<string>)
    requires IdsOf(rows) <= some && IdsOf(rows) <= ids
    requires s0 == BLANK_SNAPSHOT.(nodes := BLANK_SNAPSHOT.nodes[ActualCost := s0.At(ActualCost)])
    requires s0.At(ActualCost) == NOT_AVAILABLE || ContextOf(rows).hasAmount
    ensures
      var t := Categories(s0, ContextOf(rows), rows, some);
      SameOutcome(DraftFigures(t, ContextOf(rows), rows, ids), DraftFigures(BLANK_SNAPSHOT, ContextOf(rows), rows, ids),
                  t.variance, BLANK_SNAPSHOT.variance)
  {
    var ctx := ContextOf(rows);
    var t := Categories(s0, ctx, rows, some);
    var entered, f := FiguresOf(s0, ctx, rows, some), DraftFigures(t, ctx, rows, ids);
    CategoriesAre(s0, ctx, rows, some);
    SecondPassLeaves(s0, ctx, rows, some);
    ExtractedSame(ContractValue, rows, some, ids);
    ExtractedSame(Estimate, rows, some, ids);
    ExtractedSame(PayrollCost, rows, some, ids);
    ExtractedSame(ExpenseCost, rows, some, ids);
    ExtractedSame(CommittedCost, rows, some, ids);
    BuiltActual(rows, s0.At(ActualCost), ids);
    var g := DraftFigures(BLANK_SNAPSHOT, ctx, rows, ids);
    assert entered.(actual := f.actual) == g;
    assert f.(total := g.total) == g;
    OutcomeAgain(entered, f, g, s0.variance);
  }

  /** Working the figures out twice, with an actual cost that can only appear. */
  lemma OutcomeAgain(entered: Figures, f: Figures, g: Figures, before: Option<Variance>)
    requires entered.(actual := f.actual) == g && f.(total := g.total) == g && f.total == entered.Incurred()
    requires f.actual == NOT_AVAILABLE ==> entered.actual == NOT_AVAILABLE
    requires f.actual == NOT_AVAILABLE || f.actual.Counted()
    ensures SameOutcome(f, g, Some(entered.VarianceAfter(before)), before)
  {}

  lemma PutKeys(t: Snapshot, ctx: OdooCtx, rows: seq<Evidence>, ids: set<string>)
    ensures
      var nodes := Categories(t, ctx, rows, ids).nodes;
      && ContractValue in nodes && Estimate in nodes && PayrollCost in nodes && ExpenseCost in nodes
      && CommittedCost in nodes && TotalIncurred in nodes
  {
    FiguresArePut(t, ctx, rows, ids);
    TotalAndVarianceTwice(WithFigures(t, ctx, rows, ids));
  }

  lemma EnforcedKeys(s: Snapshot, ctx: OdooCtx, rows: seq<Evidence>, ids: set<string>)
    requires Budget in s.nodes && ActualCost in s.nodes
    ensures forall fig :: fig in Enforced(s, ctx, rows, ids).nodes
  {
    SecondPassLeaves(FromOdoo(s, ctx, ids), ctx, rows, ids);
    PutKeys(FromOdoo(s, ctx, ids), ctx, rows, ids);
    forall fig: Fig
      ensures fig in Enforced(s, ctx, rows, ids).nodes
    {
      match fig
      case Budget => case ContractValue => case Estimate => case ActualCost => case PayrollCost =>
      case ExpenseCost => case CommittedCost => case TotalIncurred =>
    }
  }

  lemma SameSnapshot(a: Snapshot, b: Snapshot)
    requires (forall fig :: fig in a.nodes && fig in b.nodes && a.At(fig) == b.At(fig)) && a.variance == b.variance
    ensures a == b
  {
    assert a.nodes == b.nodes;
  }

  lemma SameWorkedOut(a: Snapshot, b: Snapshot, f: Figures, g: Figures, before: Option<Variance>,
                      other: Option<Variance>)
    requires WorkedOut(a, f, before) && WorkedOut(b, g, other) && SameOutcome(f, g, before, other)
    requires a.At(Budget) == b.At(Budget) && forall fig :: fig in a.nodes && fig in b.nodes
    ensures a == b
  {
    forall fig: Fig
      ensures a.At(fig) == b.At(fig)
    {
      match fig
      case Budget => case ContractValue => case Estimate => case ActualCost => case PayrollCost =>
      case ExpenseCost => case CommittedCost => case TotalIncurred =>
    }
    SameSnapshot(a, b);
  }

  /** The corrections make of the builder's snapshot what they make of a blank one, whoever asked. */
  lemma BuiltSnapshotIsBlank(req: Request)
    ensures Enforced(Build(req).snapshot, PackContext(req), OdooRows(req.pack), IdsOf(req.pack))
         == Enforced(BLANK_SNAPSHOT, PackContext(req), OdooRows(req.pack), IdsOf(req.pack))
  {
    var rows, some, ids := OdooRows(req.pack), IdsOf(Usable(req)), IdsOf(req.pack);
    var ctx := ContextOf(rows);
    SameRows(req);
    BuiltParts(req);
    var s0 := InitialSnapshot(req, ctx);
    var t := Categories(s0, ctx, rows, some);
    assert s0.nodes == BLANK_SNAPSHOT.nodes[ActualCost := s0.At(ActualCost)];
    BuiltOutcome(s0, rows, some, ids);
    EnforcedIs(t, ctx, rows, ids);
    EnforcedIs(BLANK_SNAPSHOT, ctx, rows, ids);
    SecondPassLeaves(s0, ctx, rows, some);
    EnforcedKeys(t, ctx, rows, ids);
    EnforcedKeys(BLANK_SNAPSHOT, ctx, rows, ids);
    SameWorkedOut(Enforced(t, ctx, rows, ids), Enforced(BLANK_SNAPSHOT, ctx, rows, ids),
                  DraftFigures(t, ctx, rows, ids), DraftFigures(BLANK_SNAPSHOT, ctx, rows, ids),
                  t.variance, BLANK_SNAPSHOT.variance);
  }

  // ---------------------------------------------------------------------------------------------
  // The rights of the caller
  // ---------------------------------------------------------------------------------------------

  lemma ForcedTwice(sections: map<Section, SectionValue>, x: seq<Item>, y: seq<Item>, z: seq<Item>,
                    summary: Option<seq<Item>>)
    ensures ForcedSections(ForcedSections(sections, x, summary), z, summary)
         == ForcedSections(ForcedSections(sections, y, summary), z, summary)
  {}

  /** Two requests that differ in the caller's rights only. */
  predicate SameButRights(a: Request, b: Request) {
    a.(canSeeFinance := b.canSeeFinance) == b
  }

  /** Forcing twice: what the first findings were does not matter. */
  lemma ForcedBuildIsSame(a: Report, b: Report, x: Snapshot, y: Snapshot, ctx: OdooCtx)
    requires a.(snapshot := b.snapshot) == b && x == y
    ensures Force(Force(a, ctx).(snapshot := x), ctx) == Force(Force(b, ctx).(snapshot := y), ctx)
  {
    ForcedTwice(a.sections, SnapshotFindings(a.snapshot, ctx), SnapshotFindings(b.snapshot, ctx),
                SnapshotFindings(x, ctx), ForcedSummary(ctx));
  }

  /** The builder's report before it is forced. */
  function Drafted(req: Request): Report {
    var rows, documents := OdooRows(Usable(req)), Documents(Usable(req));
    Report(BuiltSections(req, ContextOf(rows), documents),
           Categories(InitialSnapshot(req, ContextOf(rows)), ContextOf(rows), rows, IdsOf(Usable(req))),
           NumberedSources(documents + rows), UNAVAILABLE_ANSWER)
  }

  lemma BuiltFromDrafted(req: Request)
    ensures Build(req) == if req.kind.FinancialReport? then Force(Drafted(req), PackContext(req)) else Drafted(req)
  {
    SameRows(req);
  }

  lemma DraftedIsSame(a: Request, b: Request)
    requires SameButRights(a, b)
    ensures Drafted(a).(snapshot := Drafted(b).snapshot) == Drafted(b)
  {}

  lemma BuiltSynthesisIsSame(a: Request, b: Request)
    requires SameButRights(a, b)
    ensures Synthesised(a, Build(a)) == Synthesised(b, Build(b))
  {
    BuiltSnapshotIsBlank(a);
    BuiltSnapshotIsBlank(b);
    BuiltFromDrafted(a);
    BuiltFromDrafted(b);
    DraftedIsSame(a, b);
    if a.kind.FinancialReport? {
      ForcedBuildIsSame(Drafted(a), Drafted(b), SnapshotEnforced(a, Build(a)).snapshot,
                        SnapshotEnforced(b, Build(b)).snapshot, PackContext(a));
    }
  }

  lemma BuiltNeverRaises(req: Request)
    ensures !SynthesisRaises(req, Build(req))
  {
    BuiltSnapshotIsTame(req);
    EnforcementStaysTame(Build(req).snapshot, PackContext(req), OdooRows(req.pack), IdsOf(req.pack));
  }

  /** What follows the synthesis does not ask for rights. */
  lemma LaterIsSame(norm: string -> string, a: Request, b: Request, r: Report, s: Report)
    requires SameButRights(a, b) && Synthesised(a, r) == Synthesised(b, s)
    requires SynthesisRaises(a, r) == SynthesisRaises(b, s)
    ensures Settled(norm, a, r) == Settled(norm, b, s)
  {
    assert forall m :: Resourced(a, m) == Resourced(b, m);
  }

  lemma AnswerIsSame(norm: string -> string, a: Request, b: Request, r: Report, s: Report)
    requires SameButRights(a, b) && Settled(norm, a, r) == Settled(norm, b, s)
    ensures Corrected(norm, a, r) == Corrected(norm, b, s)
  {
    assert forall m :: AnswerEnforced(a, m) == AnswerEnforced(b, m);
  }

  lemma RebuiltIsSame(norm: string -> string, a: Request, b: Request)
    requires SameButRights(a, b)
    ensures Corrected(norm, a, Build(a)) == Corrected(norm, b, Build(b))
  {
    BuiltSynthesisIsSame(a, b);
    BuiltNeverRaises(a);
    BuiltNeverRaises(b);
    LaterIsSame(norm, a, b, Build(a), Build(b));
    AnswerIsSame(norm, a, b, Build(a), Build(b));
  }

  lemma CorrectedIsSame(norm: string -> string, a: Request, b: Request, r: Report)
    requires SameButRights(a, b)
    ensures Corrected(norm, a, r) == Corrected(norm, b, r)
  {
    LaterIsSame(norm, a, b, r, r);
    AnswerIsSame(norm, a, b, r, r);
  }

  lemma PreparedIsSame(norm: string -> string, a: Request, b: Request, d: Report)
    requires SameButRights(a, b)
    ensures Prepared(norm, a, d) == Prepared(norm, b, d)
  {}

  lemma RightsChangeNoDraft(norm: string -> string, a: Request, b: Request, d: Report)
    requires SameButRights(a, b) && !(a.kind.SalaryReport? && !a.salaryEvidence)
    ensures Run(norm, a, Some(d)) == Run(norm, b, Some(d))
  {
    RebuiltIsSame(norm, a, b);
    PreparedIsSame(norm, a, b, d);
    DraftOutcome(norm, a, d);
    DraftOutcome(norm, b, d);
    if Prepared(norm, a, d).Some? {
      CorrectedIsSame(norm, a, b, Prepared(norm, a, d).value);
    }
  }

  lemma UnreadableOutcome(norm: string -> string, req: Request)
    requires !(req.kind.SalaryReport? && !req.salaryEvidence)
    ensures Run(norm, req, None) == Corrected(norm, req, Build(req))
  {}

  /**
    The builder withholds the actual cost from a caller without the right to see it, and the
    corrections write it back: the right changes no report, whatever the draft.
  */
  lemma RightsChangeNothing(norm: string -> string, req: Request, draft: Option<Report>)
    ensures Run(norm, req.(canSeeFinance := true), draft) == Run(norm, req.(canSeeFinance := false), draft)
  {
    var a, b := req.(canSeeFinance := true), req.(canSeeFinance := false);
    if !(req.kind.SalaryReport? && !req.salaryEvidence) {
      match draft
      case Some(d) => RightsChangeNoDraft(norm, a, b, d);
      case None =>
        UnreadableOutcome(norm, a);
        UnreadableOutcome(norm, b);
        RebuiltIsSame(norm, a, b);
    }
  }
}
