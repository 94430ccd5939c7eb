/** What the financial enforcement guarantees, for every draft snapshot and every Odoo evidence. */
module FinanceLaws {
  import opened Wrappers
  import opened Finance

  // ---------------------------------------------------------------------------------------------
  // The second pass, figure by figure
  // ---------------------------------------------------------------------------------------------

  /** The seven figures with which the second pass works out total and variance. */
  datatype Figures = Figures(
    contract: Node, estimate: Node, actual: Node, payroll: Node, expense: Node, committed: Node, total: Node)
  {
    /** Two parts of the incurred cost or more are counted. */
    predicate Several() {
      || (actual.Counted() && payroll.Counted())
      || (actual.Counted() && expense.Counted())
      || (payroll.Counted() && expense.Counted())
    }

    predicate AnyPart() { actual.Counted() || payroll.Counted() || expense.Counted() }

    /** The first counted part; it lends the total its id. */
    function FirstPart(): Node {
      if actual.Counted() then actual else if payroll.Counted() then payroll else expense
    }

    function Incurred(): Node {
      if AnyPart() then Node(Num(Spend(actual) + Spend(payroll) + Spend(expense)), FirstPart().eid, true) else total
    }

    /** The figures a report may show, in the order it shows them. */
    function Nodes(): seq<Node> { [contract, estimate, actual, payroll, expense, committed, Incurred()] }

    function SpentNode(): Node { if Several() then Incurred() else actual }

    /** There is a non-zero estimate, and a spend to measure against it. */
    predicate Measurable() {
      estimate.available && estimate.value.Truthy() && (actual.Counted() || (payroll.Counted() && expense.Counted()))
    }

    /** A counted part, or the estimate of a measurable spend, is no number. */
    predicate Raises() {
      || (actual.Counted() && actual.value.Text?) || (payroll.Counted() && payroll.value.Text?)
      || (expense.Counted() && expense.value.Text?)
      || (Measurable() && estimate.value.Text?)
    }

    function VarianceAfter(before: Option<Variance>): Variance {
      if Measurable() then
        Variance(Num((if estimate.value.Num? then estimate.value.n else 0) - SpentNode().value.Size()),
                 Some(if Several() then EstimateMinusTotal else EstimateMinusActual),
                 TwoRefs(estimate.eid, SpentNode().eid))
      else if before.None? then Variance(Null, None, [])
      else before.value
    }
  }

  /** What a figure adds to the incurred total. */
  function Spend(n: Node): nat {
    if n.Counted() then n.value.Size() else 0
  }

  /** The figures of a snapshot that enters the second pass: extracted, or what it had. */
  function FiguresOf(t: Snapshot, ctx: OdooCtx, rows: seq<Evidence>, ids: set<string>): Figures {
    Figures(Filled(Extracted(ContractValue, ctx, rows, ids), t.At(ContractValue)),
            Filled(Extracted(Estimate, ctx, rows, ids), t.At(Estimate)),
            t.At(ActualCost),
            Filled(Extracted(PayrollCost, ctx, rows, ids), t.At(PayrollCost)),
            Filled(Extracted(ExpenseCost, ctx, rows, ids), t.At(ExpenseCost)),
            Filled(Extracted(CommittedCost, ctx, rows, ids), t.At(CommittedCost)),
            t.At(TotalIncurred))
  }

  /** The actual cost of a draft after the first pass: the analytic sum, its own when its id is known, or none. */
  function ActualAfter(s: Snapshot, ctx: OdooCtx, ids: set<string>): Node {
    if ActualCost in s.nodes then EnforcedActual(s.nodes[ActualCost], ctx, ids) else NOT_AVAILABLE
  }

  /** The figures of a draft, each extracted or the draft's own. */
  function DraftFigures(s: Snapshot, ctx: OdooCtx, rows: seq<Evidence>, ids: set<string>): Figures {
    FiguresOf(s, ctx, rows, ids).(actual := ActualAfter(s, ctx, ids))
  }

  lemma FirstPassIs(s: Snapshot, ctx: OdooCtx, rows: seq<Evidence>, ids: set<string>)
    ensures
      var t := FromOdoo(s, ctx, ids);
      && FiguresOf(t, ctx, rows, ids) == DraftFigures(s, ctx, rows, ids)
      && t.At(Budget) == NOT_AVAILABLE && t.variance == s.variance
      && (forall f :: f != Budget && f != ActualCost ==> t.At(f) == s.At(f))
  {}

  /** `e` holds the figures, with total and variance worked out from them. */
  ghost predicate WorkedOut(e: Snapshot, f: Figures, before: Option<Variance>) {
    && Shows(e, f) && e.At(TotalIncurred) == f.Incurred() && e.variance == Some(f.VarianceAfter(before))
  }

  ghost predicate Shows(e: Snapshot, f: Figures) {
    && e.At(ContractValue) == f.contract && e.At(Estimate) == f.estimate && e.At(ActualCost) == f.actual
    && e.At(PayrollCost) == f.payroll && e.At(ExpenseCost) == f.expense && e.At(CommittedCost) == f.committed
  }

  lemma PartsMeaning(s: Snapshot, f: Figures)
    requires Shows(s, f)
    ensures
      var parts := Parts(s, INCURRED_FIGS);
      && SumParts(parts) == Spend(f.actual) + Spend(f.payroll) + Spend(f.expense)
      && (parts != [] <==> f.AnyPart()) && (|parts| > 1 <==> f.Several())
      && (parts != [] ==> parts[0].1 == f.FirstPart().eid)
  {
    PartsOfTwo(s);
    assert INCURRED_FIGS[1..] == [PayrollCost, ExpenseCost];
  }

  lemma PartsOfTwo(s: Snapshot)
    ensures
      var parts := Parts(s, [PayrollCost, ExpenseCost]);
      && SumParts(parts) == Spend(s.At(PayrollCost)) + Spend(s.At(ExpenseCost))
      && |parts| == (if s.At(PayrollCost).Counted() then 1 else 0) + (if s.At(ExpenseCost).Counted() then 1 else 0)
      && (parts != [] ==>
            parts[0].1 == (if s.At(PayrollCost).Counted() then s.At(PayrollCost) else s.At(ExpenseCost)).eid)
  {
    PartsOfOne(s, ExpenseCost);
    assert [PayrollCost, ExpenseCost][1..] == [ExpenseCost];
  }

  lemma PartsOfOne(s: Snapshot, fig: Fig)
    ensures Parts(s, [fig]) == if s.At(fig).Counted() then [(s.At(fig).value.Size(), s.At(fig).eid)] else []
    ensures SumParts(Parts(s, [fig])) == Spend(s.At(fig))
  {
    assert [fig][1..] == [];
  }

  lemma PartsUnchanged(s: Snapshot, t: Snapshot, figs: seq<Fig>)
    requires forall f :: f in figs ==> s.At(f) == t.At(f)
    ensures Parts(s, figs) == Parts(t, figs)
  {}

  lemma FiguresPutIn(t: Snapshot, ctx: OdooCtx, rows: seq<Evidence>, ids: set<string>)
    ensures
      var w := WithFigures(t, ctx, rows, ids);
      && Shows(w, FiguresOf(t, ctx, rows, ids))
      && w.At(TotalIncurred) == t.At(TotalIncurred) && w.At(Budget) == t.At(Budget) && w.variance == t.variance
  {}

  lemma TotalAndVariance(w: Snapshot, f: Figures)
    requires Shows(w, f) && w.At(TotalIncurred) == f.total
    ensures WorkedOut(WithVariance(WithTotal(w)), f, w.variance)
    ensures TotalRaises(w) || VarianceRaises(WithTotal(w)) <==> f.Raises()
    ensures VarianceDue(WithTotal(w)) <==> f.Measurable()
  {
    var t := WithTotal(w);
    PartsMeaning(w, f);
    assert Shows(t, f);
    PartsMeaning(t, f);
    assert t.At(TotalIncurred) == f.Incurred();
    assert Spent(t).0 == f.SpentNode();
    PartsThatRaise(w, f);
  }

  lemma PartsThatRaise(w: Snapshot, f: Figures)
    requires Shows(w, f)
    ensures TotalRaises(w) <==>
      || (f.actual.Counted() && f.actual.value.Text?) || (f.payroll.Counted() && f.payroll.value.Text?)
      || (f.expense.Counted() && f.expense.value.Text?)
  {
    assert INCURRED_FIGS[0] == ActualCost && INCURRED_FIGS[1] == PayrollCost && INCURRED_FIGS[2] == ExpenseCost;
  }

  /** The second pass: what it leaves, and when it raises, told from the figures it starts with. */
  lemma CategoriesAre(t: Snapshot, ctx: OdooCtx, rows: seq<Evidence>, ids: set<string>)
    ensures WorkedOut(Categories(t, ctx, rows, ids), FiguresOf(t, ctx, rows, ids), t.variance)
    ensures Categories(t, ctx, rows, ids).At(Budget) == t.At(Budget)
    ensures SecondPassRaises(t, ctx, rows, ids) <==> FiguresOf(t, ctx, rows, ids).Raises()
  {
    FiguresPutIn(t, ctx, rows, ids);
    TotalAndVariance(WithFigures(t, ctx, rows, ids), FiguresOf(t, ctx, rows, ids));
  }

  /** Both passes: what they leave, and when they raise, told from the draft. */
  lemma EnforcedIs(s: Snapshot, ctx: OdooCtx, rows: seq<Evidence>, ids: set<string>)
    ensures WorkedOut(Enforced(s, ctx, rows, ids), DraftFigures(s, ctx, rows, ids), s.variance)
    ensures Enforced(s, ctx, rows, ids).At(Budget) == NOT_AVAILABLE
    ensures EnforcementRaises(s, ctx, rows, ids) <==>
              FirstPassRaises(s, ctx, ids) || DraftFigures(s, ctx, rows, ids).Raises()
  {
    FirstPassIs(s, ctx, rows, ids);
    CategoriesAre(FromOdoo(s, ctx, ids), ctx, rows, ids);
  }

  // ---------------------------------------------------------------------------------------------
  // Total incurred and variance
  // ---------------------------------------------------------------------------------------------

  /**
    The total after enforcement: set exactly from the counted parts of the final snapshot, as the
    sum of their absolute values; with no counted part the draft's own node, if any, is left.
  */
  lemma TotalIsTheSumOfItsParts(s: Snapshot, ctx: OdooCtx, rows: seq<Evidence>, ids: set<string>)
    requires !EnforcementRaises(s, ctx, rows, ids)
    ensures
      var e := Enforced(s, ctx, rows, ids);
      if e.At(ActualCost).Counted() || e.At(PayrollCost).Counted() || e.At(ExpenseCost).Counted()
      then
        && e.At(TotalIncurred).available
        && e.At(TotalIncurred).value ==
            Num(Spend(e.At(ActualCost)) + Spend(e.At(PayrollCost)) + Spend(e.At(ExpenseCost)))
      else e.At(TotalIncurred) == s.At(TotalIncurred)
  {
    EnforcedIs(s, ctx, rows, ids);
  }

  /** Equal in every figure but the committed cost, and in the variance. */
  ghost predicate SameButCommitted(a: Snapshot, b: Snapshot) {
    a.variance == b.variance && forall f :: f != CommittedCost ==> a.At(f) == b.At(f)
  }

  lemma SameFiguresSameRest(a: Snapshot, b: Snapshot, f: Figures, g: Figures, before: Option<Variance>)
    requires WorkedOut(a, f, before) && WorkedOut(b, g, before) && f.(committed := g.committed) == g
    requires a.At(Budget) == b.At(Budget)
    ensures SameButCommitted(a, b)
  {
    forall fig: Fig | fig != CommittedCost
      ensures a.At(fig) == b.At(fig)
    {
      match fig case _ =>
    }
  }

  /** Purchase orders never move the incurred total or the variance. */
  lemma CommittedNeverCounts(s: Snapshot, ctx: OdooCtx, rows: seq<Evidence>, other: seq<Evidence>, ids: set<string>)
    ensures SameButCommitted(Enforced(s, ctx, rows, ids), Enforced(s, ctx, other, ids))
  {
    var f, g := DraftFigures(s, ctx, rows, ids), DraftFigures(s, ctx, other, ids);
    assert f.(committed := g.committed) == g;
    EnforcedIs(s, ctx, rows, ids);
    EnforcedIs(s, ctx, other, ids);
    SameFiguresSameRest(Enforced(s, ctx, rows, ids), Enforced(s, ctx, other, ids), f, g, s.variance);
  }

  /**
    The variance after enforcement. When it is due it is the estimate minus the spend its formula
    names: the total when at least two parts are counted, else the actual cost; and it cites the
    ids of the two, the estimate's first. When it is not due, the draft's variance is what remains.
  */
  lemma VarianceIsEstimateMinusSpend(s: Snapshot, ctx: OdooCtx, rows: seq<Evidence>, ids: set<string>)
    requires !EnforcementRaises(s, ctx, rows, ids)
    ensures
      var e := Enforced(s, ctx, rows, ids);
      var f := DraftFigures(s, ctx, rows, ids);
      var spent := if f.Several() then e.At(TotalIncurred) else e.At(ActualCost);
      && e.variance.Some?
      && (f.Measurable() ==>
            && e.At(Estimate).value.Num? && spent.value.Num?
            && e.variance.value.value == Num(e.At(Estimate).value.n - Abs(spent.value.n))
            && e.variance.value.formula == Some(if f.Several() then EstimateMinusTotal else EstimateMinusActual)
            && e.variance.value.eids == e.At(Estimate).eid.Ids() + spent.eid.Ids())
      && (!f.Measurable() && s.variance.Some? ==> e.variance == s.variance)
      && (!f.Measurable() && s.variance.None? ==> e.variance == Some(Variance(Null, None, [])))
  {
    EnforcedIs(s, ctx, rows, ids);
    var f := DraftFigures(s, ctx, rows, ids);
    if f.Measurable() {
      MeasuredAreNumbers(f);
    }
  }

  lemma MeasuredAreNumbers(f: Figures)
    requires f.Measurable() && !f.Raises()
    ensures f.estimate.value.Num? && f.SpentNode().value.Num?
  {}

  // ---------------------------------------------------------------------------------------------
  // When enforcement raises
  // ---------------------------------------------------------------------------------------------

  /** A draft that writes its payroll cost as text makes the second pass raise, wherever nothing is extracted. */
  lemma TextualPartRaises(s: Snapshot, ctx: OdooCtx, rows: seq<Evidence>, ids: set<string>, eid: Ref)
    requires s.At(PayrollCost) == Node(Text(false), eid, true) && ctx.payroll.None?
    ensures EnforcementRaises(s, ctx, rows, ids)
  {
    EnforcedIs(s, ctx, rows, ids);
  }

  /** So does an actual cost written as text that cites a known id, over a pack without cost lines. */
  lemma TextualActualCostRaises(s: Snapshot, ctx: OdooCtx, rows: seq<Evidence>, ids: set<string>, eid: string)
    requires ActualCost in s.nodes && s.nodes[ActualCost] == Node(Text(false), One(eid), true)
    requires eid in ids && ',' !in eid && !ctx.hasAmount
    ensures EnforcementRaises(s, ctx, rows, ids)
  {
    EnforcedIs(s, ctx, rows, ids);
  }

  /** And an available actual cost whose id is a list makes the first pass raise. */
  lemma ListedActualCostRaises(s: Snapshot, ctx: OdooCtx, rows: seq<Evidence>, ids: set<string>, listed: seq<string>)
    requires ActualCost in s.nodes && s.nodes[ActualCost].available && s.nodes[ActualCost].eid == Several(listed)
    requires !ctx.hasAmount
    ensures EnforcementRaises(s, ctx, rows, ids)
  {
    EnforcedIs(s, ctx, rows, ids);
  }

  // ---------------------------------------------------------------------------------------------
  // Every figure is backed
  // ---------------------------------------------------------------------------------------------

  /** What the prompt asks the draft for: no figure beyond budget and actual cost, and no variance yet. */
  predicate PromptedOnly(s: Snapshot) {
    && s.nodes.Keys <= {Budget, ActualCost}
    && (s.variance.Some? ==> s.variance.value.value == Null)
  }

  /** Amounts are numbers or null, and ids are no lists. */
  ghost predicate WellTyped(s: Snapshot) {
    && (forall f :: !s.At(f).value.Text? && !s.At(f).eid.Several?)
    && (s.variance.Some? ==> !s.variance.value.value.Text?)
  }

  lemma {:induction false} TallyIdIsKnown(rows: seq<Evidence>, categories: set<Category>, fields: seq<Field>,
                                          known: Option<set<string>>)
    ensures
      var t := TallyOf(rows, categories, fields, known);
      t.eid != "" ==> t.eid in IdsOf(rows) && (known.Some? ==> t.eid in known.value)
  {
    if rows != [] {
      TallyIdIsKnown(rows[..|rows| - 1], categories, fields, known);
      assert forall e :: e in rows[..|rows| - 1] ==> e in rows;
      assert rows[|rows| - 1] in rows;
    }
  }

  /** What is extracted carries an id of the pack. */
  lemma ExtractedIsBacked(fig: Fig, ctx: OdooCtx, rows: seq<Evidence>, ids: set<string>)
    ensures Extracted(fig, ctx, rows, ids).Some? ==> Extracted(fig, ctx, rows, ids).value.eid in ids
  {
    TallyIdIsKnown(rows, COMMITTED_CATEGORIES, COMMITTED_FIELDS, Some(ids));
  }

  ghost predicate NodeBacked(n: Node, ids: set<string>) {
    n.available ==> n.eid.In(ids)
  }

  ghost predicate AllBacked(e: Snapshot, ids: set<string>) {
    forall f :: NodeBacked(e.At(f), ids)
  }

  /** The draft's own node for `fig` is replaced by an extracted figure, or is backed itself. */
  ghost predicate FilledOrBacked(s: Snapshot, fig: Fig, ctx: OdooCtx, rows: seq<Evidence>, ids: set<string>) {
    Extracted(fig, ctx, rows, ids).Some? || NodeBacked(s.At(fig), ids)
  }

  /**
    No figure of the draft's own making survives without an id of the pack: each is extracted or
    backed itself, and so is its total when no part is counted.
  */
  ghost predicate DraftFiguresSafe(s: Snapshot, ctx: OdooCtx, rows: seq<Evidence>, ids: set<string>) {
    && FilledOrBacked(s, ContractValue, ctx, rows, ids) && FilledOrBacked(s, Estimate, ctx, rows, ids)
    && FilledOrBacked(s, CommittedCost, ctx, rows, ids) && FilledOrBacked(s, PayrollCost, ctx, rows, ids)
    && FilledOrBacked(s, ExpenseCost, ctx, rows, ids)
    && (DraftFigures(s, ctx, rows, ids).AnyPart() || NodeBacked(s.At(TotalIncurred), ids))
  }

  lemma FilledBackedIff(s: Snapshot, fig: Fig, ctx: OdooCtx, rows: seq<Evidence>, ids: set<string>)
    ensures NodeBacked(Filled(Extracted(fig, ctx, rows, ids), s.At(fig)), ids) <==>
                FilledOrBacked(s, fig, ctx, rows, ids)
  {
    ExtractedIsBacked(fig, ctx, rows, ids);
  }

  /** Seven backed figures, with the total they are worked out to. */
  ghost predicate FiguresBacked(f: Figures, ids: set<string>) {
    && NodeBacked(f.contract, ids) && NodeBacked(f.estimate, ids) && NodeBacked(f.actual, ids)
    && NodeBacked(f.payroll, ids) && NodeBacked(f.expense, ids) && NodeBacked(f.committed, ids)
    && NodeBacked(f.Incurred(), ids)
  }

  lemma WorkedOutBackedIff(e: Snapshot, f: Figures, before: Option<Variance>, ids: set<string>)
    requires WorkedOut(e, f, before) && NodeBacked(e.At(Budget), ids)
    ensures AllBacked(e, ids) <==> FiguresBacked(f, ids)
  {
    if FiguresBacked(f, ids) {
      forall fig: Fig
        ensures NodeBacked(e.At(fig), ids)
      {
        match fig
        case Budget => case ContractValue => case Estimate => case ActualCost => case PayrollCost =>
        case ExpenseCost => case CommittedCost => case TotalIncurred =>
      }
    }
  }

  /**
    After enforcement every available figure carries an id of the pack exactly when no figure of
    the draft's own making survives without one: a draft that writes a figure the node does not
    extract keeps it, with whatever id it cites.
  */
  lemma EveryFigureIsBackedIff(s: Snapshot, ctx: OdooCtx, rows: seq<Evidence>, ids: set<string>)
    ensures AllBacked(Enforced(s, ctx, rows, ids), ids) <==> DraftFiguresSafe(s, ctx, rows, ids)
  {
    EnforcedIs(s, ctx, rows, ids);
    WorkedOutBackedIff(Enforced(s, ctx, rows, ids), DraftFigures(s, ctx, rows, ids), s.variance, ids);
    FilledBackedIff(s, ContractValue, ctx, rows, ids);
    FilledBackedIff(s, Estimate, ctx, rows, ids);
    FilledBackedIff(s, CommittedCost, ctx, rows, ids);
    FilledBackedIff(s, PayrollCost, ctx, rows, ids);
    FilledBackedIff(s, ExpenseCost, ctx, rows, ids);
  }

  lemma PromptedAreSafe(s: Snapshot, ctx: OdooCtx, rows: seq<Evidence>, ids: set<string>)
    requires PromptedOnly(s)
    ensures DraftFiguresSafe(s, ctx, rows, ids)
  {
    assert forall f :: f != Budget && f != ActualCost ==> s.At(f) == NOT_AVAILABLE;
  }

  /** In particular for every draft of the shape the prompt asks for. */
  lemma PromptedDraftsAreBacked(s: Snapshot, ctx: OdooCtx, rows: seq<Evidence>, ids: set<string>)
    requires PromptedOnly(s)
    ensures AllBacked(Enforced(s, ctx, rows, ids), ids)
  {
    PromptedAreSafe(s, ctx, rows, ids);
    EveryFigureIsBackedIff(s, ctx, rows, ids);
  }

  /** A draft that invents a contract value keeps it, citing an id outside the pack. */
  lemma InventedFigureSurvives(ids: set<string>, invented: string)
    requires invented !in ids
    ensures
      var draft := Snapshot(map[ContractValue := Node(Num(1), One(invented), true)], None);
      !EnforcementRaises(draft, ContextOf([]), [], ids) && !AllBacked(Enforced(draft, ContextOf([]), [], ids), ids)
  {
    var draft := Snapshot(map[ContractValue := Node(Num(1), One(invented), true)], None);
    EveryFigureIsBackedIff(draft, ContextOf([]), [], ids);
    EnforcedIs(draft, ContextOf([]), [], ids);
    assert draft.At(ContractValue) == Node(Num(1), One(invented), true);
  }

  /** For every draft, prompted or not: the actual cost is backed or demoted, and no budget is claimed. */
  lemma ActualCostIsBacked(s: Snapshot, ctx: OdooCtx, rows: seq<Evidence>, ids: set<string>)
    ensures
      var e := Enforced(s, ctx, rows, ids);
      NodeBacked(e.At(ActualCost), ids) && !e.At(Budget).available
  {
    EnforcedIs(s, ctx, rows, ids);
  }

  // ---------------------------------------------------------------------------------------------
  // Enforcing twice
  // ---------------------------------------------------------------------------------------------

  lemma {:induction false} PiecesHaveNoComma(s: string)
    ensures SplitComma(s) != [] && forall p :: p in SplitComma(s) ==> ',' !in p
  {
    if s != "" { PiecesHaveNoComma(s[1..]); }
  }

  lemma {:induction false} StripKeepsNoComma(s: string)
    requires ',' !in s
    ensures ',' !in Strip(s)
    decreases |s|
  {
    if s != "" && Blank(s[0]) {
      StripKeepsNoComma(s[1..]);
    } else if s != "" && Blank(s[|s| - 1]) {
      StripKeepsNoComma(s[..|s| - 1]);
    }
  }

  lemma {:induction false} FirstKnownHasNoComma(candidates: seq<string>, ids: set<string>)
    requires forall p :: p in candidates ==> ',' !in p
    ensures FirstKnown(candidates, ids).Some? ==> ',' !in FirstKnown(candidates, ids).value
  {
    if candidates != [] {
      StripKeepsNoComma(candidates[0]);
      FirstKnownHasNoComma(candidates[1..], ids);
    }
  }

  lemma OneIdTwice(n: Node, ids: set<string>)
    ensures OneId(OneId(n, ids), ids) == OneId(n, ids)
  {
    if n.eid.One? {
      PiecesHaveNoComma(n.eid.id);
      FirstKnownHasNoComma(SplitComma(n.eid.id), ids);
    }
  }

  lemma ActualTwice(n: Node, ctx: OdooCtx, ids: set<string>)
    ensures EnforcedActual(EnforcedActual(n, ctx, ids), ctx, ids) == EnforcedActual(n, ctx, ids)
  {
    OneIdTwice(n, ids);
  }

  lemma FirstPassTwice(s: Snapshot, ctx: OdooCtx, rows: seq<Evidence>, ids: set<string>)
    ensures FromOdoo(Enforced(s, ctx, rows, ids), ctx, ids) == Enforced(s, ctx, rows, ids)
  {
    SecondPassLeaves(FromOdoo(s, ctx, ids), ctx, rows, ids);
    AlreadyFirst(Enforced(s, ctx, rows, ids), s, ctx, ids);
  }

  /** The second pass touches neither the budget nor the actual cost. */
  predicate Same(a: Snapshot, b: Snapshot, fig: Fig) {
    (fig in a.nodes <==> fig in b.nodes) && a.At(fig) == b.At(fig)
  }

  lemma SecondPassLeaves(t: Snapshot, ctx: OdooCtx, rows: seq<Evidence>, ids: set<string>)
    ensures Same(Categories(t, ctx, rows, ids), t, Budget) && Same(Categories(t, ctx, rows, ids), t, ActualCost)
  {
    var f := WithFigures(t, ctx, rows, ids);
    assert Same(f, t, Budget) && Same(f, t, ActualCost);
    TotalAndVarianceTwice(f);
  }

  lemma AlreadyFirst(e: Snapshot, s: Snapshot, ctx: OdooCtx, ids: set<string>)
    requires Same(e, FromOdoo(s, ctx, ids), Budget) && Same(e, FromOdoo(s, ctx, ids), ActualCost)
    ensures FromOdoo(e, ctx, ids) == e
  {
    if ActualCost in s.nodes {
      ActualTwice(s.nodes[ActualCost], ctx, ids);
    }
    assert FromOdoo(e, ctx, ids).nodes == e.nodes;
  }

  /** The node was written by an earlier `Put` of the same figure. */
  predicate PutBefore(s: Snapshot, fig: Fig, m: Option<Money>) {
    fig in s.nodes && s.nodes[fig] == Filled(m, s.nodes[fig])
  }

  lemma PutTwice(s: Snapshot, fig: Fig, m: Option<Money>)
    requires PutBefore(s, fig, m)
    ensures Put(s, fig, m) == s
  {
    assert Put(s, fig, m).nodes == s.nodes;
  }

  predicate FiguresPut(s: Snapshot, ctx: OdooCtx, rows: seq<Evidence>, ids: set<string>) {
    && PutBefore(s, ContractValue, Extracted(ContractValue, ctx, rows, ids))
    && PutBefore(s, Estimate, Extracted(Estimate, ctx, rows, ids))
    && PutBefore(s, CommittedCost, Extracted(CommittedCost, ctx, rows, ids))
    && PutBefore(s, PayrollCost, Extracted(PayrollCost, ctx, rows, ids))
    && PutBefore(s, ExpenseCost, Extracted(ExpenseCost, ctx, rows, ids))
  }

  lemma FiguresArePut(s: Snapshot, ctx: OdooCtx, rows: seq<Evidence>, ids: set<string>)
    ensures FiguresPut(WithFigures(s, ctx, rows, ids), ctx, rows, ids)
  {}

  lemma FiguresTwice(s: Snapshot, ctx: OdooCtx, rows: seq<Evidence>, ids: set<string>)
    requires FiguresPut(s, ctx, rows, ids)
    ensures WithFigures(s, ctx, rows, ids) == s
  {
    PutTwice(s, ContractValue, Extracted(ContractValue, ctx, rows, ids));
    PutTwice(s, Estimate, Extracted(Estimate, ctx, rows, ids));
    PutTwice(s, CommittedCost, Extracted(CommittedCost, ctx, rows, ids));
    PutTwice(s, PayrollCost, Extracted(PayrollCost, ctx, rows, ids));
    PutTwice(s, ExpenseCost, Extracted(ExpenseCost, ctx, rows, ids));
  }

  lemma TotalAndVarianceTwice(f: Snapshot)
    ensures
      var c := WithVariance(WithTotal(f));
      && WithVariance(WithTotal(c)) == c
      && (forall fig :: fig != TotalIncurred ==> (fig in c.nodes <==> fig in f.nodes) && c.At(fig) == f.At(fig))
  {
    var t := WithTotal(f);
    var c := WithVariance(t);
    assert c.nodes == t.nodes;
    PartsUnchanged(f, t, INCURRED_FIGS);
    PartsUnchanged(t, c, INCURRED_FIGS);
    assert WithTotal(c).nodes == c.nodes;
  }

  lemma SecondPassTwice(s: Snapshot, ctx: OdooCtx, rows: seq<Evidence>, ids: set<string>)
    ensures Categories(Categories(s, ctx, rows, ids), ctx, rows, ids) == Categories(s, ctx, rows, ids)
  {
    var f := WithFigures(s, ctx, rows, ids);
    var c := WithVariance(WithTotal(f));
    FiguresArePut(s, ctx, rows, ids);
    TotalAndVarianceTwice(f);
    PutSurvives(f, c, ctx, rows, ids);
    FiguresTwice(c, ctx, rows, ids);
  }

  lemma PutSurvives(f: Snapshot, c: Snapshot, ctx: OdooCtx, rows: seq<Evidence>, ids: set<string>)
    requires FiguresPut(f, ctx, rows, ids)
    requires forall fig :: fig != TotalIncurred ==> (fig in c.nodes <==> fig in f.nodes) && c.At(fig) == f.At(fig)
    ensures FiguresPut(c, ctx, rows, ids)
  {
    assert forall fig :: fig != TotalIncurred && fig in f.nodes ==>
        c.nodes[fig] == c.At(fig) == f.At(fig) == f.nodes[fig];
  }

  /** Running both enforcement passes again changes nothing, for every draft whatever. */
  lemma EnforcementIsIdempotent(s: Snapshot, ctx: OdooCtx, rows: seq<Evidence>, ids: set<string>)
    ensures Enforced(Enforced(s, ctx, rows, ids), ctx, rows, ids) == Enforced(s, ctx, rows, ids)
  {
    FirstPassTwice(s, ctx, rows, ids);
    SecondPassTwice(FromOdoo(s, ctx, ids), ctx, rows, ids);
  }

  // ---------------------------------------------------------------------------------------------
  // Two computations of the incurred total
  // ---------------------------------------------------------------------------------------------

  lemma {:induction false} CostLinesAreRows(rows: seq<Evidence>)
    ensures forall e :: e in CostLines(rows) <==> e in rows && e.isCostLine
    ensures forall e :: e in ProjectRecords(rows) <==> e in rows && !e.isCostLine
  {
    if rows != [] {
      CostLinesAreRows(rows[..|rows| - 1]);
      assert rows == rows[..|rows| - 1] + [rows[|rows| - 1]];
    }
  }

  lemma {:induction false} CostTallyMeaning(lines: seq<Evidence>)
    ensures
      var t := CostTallyOf(lines);
      && (t.best.Some? ==> t.best.value in IdsOf(lines))
      && (t.hasAmount ==> lines != [])
  {
    if lines != [] {
      CostTallyMeaning(lines[..|lines| - 1]);
      assert forall e :: e in lines[..|lines| - 1] ==> e in lines;
      assert lines[|lines| - 1] in lines;
    }
  }

  lemma {:induction false} FirstValuedIsALine(lines: seq<Evidence>)
    ensures FirstValued(lines).Some? ==> FirstValued(lines).value in IdsOf(lines)
  {
    if lines != [] {
      FirstValuedIsALine(lines[1..]);
      assert forall e :: e in lines[1..] ==> e in lines;
      assert lines[0] in lines;
    }
  }

  lemma {:induction false} InsertKeeps(line: Evidence, sorted: seq<Evidence>)
    ensures forall e :: e in InsertByDate(line, sorted) <==> e == line || e in sorted
  {
    if sorted != [] {
      InsertKeeps(line, sorted[1..]);
      assert sorted == [sorted[0]] + sorted[1..];
    }
  }

  lemma {:induction false} ByDateKeeps(lines: seq<Evidence>)
    ensures forall e :: e in ByDate(lines) <==> e in lines
  {
    if lines != [] {
      var n := |lines| - 1;
      ByDateKeeps(lines[..n]);
      InsertKeeps(lines[n], ByDate(lines[..n]));
      assert lines == lines[..n] + [lines[n]];
    }
  }

  /** When the pack holds all Odoo rows, a computed analytic total always finds an id to back it. */
  lemma CostIdIsKnown(rows: seq<Evidence>, ids: set<string>)
    requires IdsOf(rows) <= ids && ContextOf(rows).hasAmount
    ensures CostId(ContextOf(rows), ids) in ids
  {
    var lines := CostLines(rows);
    var ctx := ContextOf(rows);
    CostLinesAreRows(rows);
    CostTallyMeaning(lines);
    FirstValuedIsALine(lines);
    if ctx.best.None? {
      ByDateKeeps(lines);
      assert lines[0] in ByDate(lines);
      var first := ctx.sampleLines[0];
      assert first in ByDate(lines) && first in rows && first.id in IdsOf(rows);
    } else {
      assert ctx.best.value in IdsOf(lines);
      assert forall e :: e in lines ==> e in rows;
    }
  }

  /** With all Odoo rows in the pack, payroll and expenses are set exactly when they were extracted. */
  lemma CategoriesAreBacked(rows: seq<Evidence>, ids: set<string>)
    requires IdsOf(rows) <= ids
    ensures Backed(ContextOf(rows).payroll, ids) == ContextOf(rows).payroll
    ensures Backed(ContextOf(rows).expense, ids) == ContextOf(rows).expense
  {
    TallyIdIsKnown(rows, PAYROLL_CATEGORIES, PAYROLL_FIELDS, None);
    TallyIdIsKnown(rows, EXPENSE_CATEGORIES, EXPENSE_FIELDS, None);
  }

  function AsOption(n: Node): Option<int> {
    if n.Counted() && n.value.Num? then Some(n.value.n) else None
  }

  lemma ContextTotal(ctx: OdooCtx)
    ensures ctx.TotalIncurred() ==
      if ctx.hasAmount || ctx.payroll.Some? || ctx.expense.Some?
      then Some((if ctx.hasAmount then Abs(ctx.totalAmount) else 0)
                + (if ctx.payroll.Some? then Abs(ctx.payroll.value.value) else 0)
                + (if ctx.expense.Some? then Abs(ctx.expense.value.value) else 0))
      else None
  {
    var a := if ctx.hasAmount then [Abs(ctx.totalAmount)] else [];
    var p := if ctx.payroll.Some? then [Abs(ctx.payroll.value.value)] else [];
    var x := if ctx.expense.Some? then [Abs(ctx.expense.value.value)] else [];
    assert ctx.Incurred() == a + p + x;
    SumConcat(a + p, x);
    SumConcat(a, p);
    assert Sum(a) == if ctx.hasAmount then Abs(ctx.totalAmount) else 0;
  }

  lemma {:induction false} SumConcat(a: seq<nat>, b: seq<nat>)
    ensures Sum(a + b) == Sum(a) + Sum(b)
  {
    if a == [] {
      assert a + b == b;
    } else {
      SumConcat(a[1..], b);
      assert (a + b)[1..] == a[1..] + b;
    }
  }

  /**
    The two computations of the incurred total agree exactly when the analytic lines gave an amount
    or no draft figure took their place. A draft's own actual cost, kept because it cites some id of
    the pack, is counted in the snapshot but not in the summary.
  */
  lemma TwoTotalsAgreeIff(s: Snapshot, rows: seq<Evidence>, ids: set<string>)
    requires PromptedOnly(s) && ActualCost in s.nodes && IdsOf(rows) <= ids
    requires !EnforcementRaises(s, ContextOf(rows), rows, ids)
    ensures
      var ctx := ContextOf(rows);
      var kept := EnforcedActual(s.nodes[ActualCost], ctx, ids);
      AsOption(Enforced(s, ctx, rows, ids).At(TotalIncurred)) == ctx.TotalIncurred() <==>
        || ctx.hasAmount
        || !kept.Counted()
        || (kept.value == Num(0) && (ctx.payroll.Some? || ctx.expense.Some?))
  {
    var ctx := ContextOf(rows);
    if ctx.hasAmount { CostIdIsKnown(rows, ids); }
    CategoriesAreBacked(rows, ids);
    PromptedTotal(s, ctx, rows, ids);
    var kept := ActualAfter(s, ctx, ids);
    if kept.Counted() { KeptIsNoText(s, ctx, rows, ids); }
    TotalsCompared(ctx, kept, Enforced(s, ctx, rows, ids).At(TotalIncurred));
  }

  lemma TotalsCompared(ctx: OdooCtx, kept: Node, total: Node)
    requires kept.Counted() ==> kept.value.Num?
    requires ctx.hasAmount ==> kept.Counted() && kept.value == Num(ctx.totalAmount)
    requires
      if kept.Counted() || ctx.payroll.Some? || ctx.expense.Some?
      then total.available && total.value == Num(Spend(kept) + MoneySize(ctx.payroll) + MoneySize(ctx.expense))
      else total == NOT_AVAILABLE
    ensures AsOption(total) == ctx.TotalIncurred() <==>
      || ctx.hasAmount
      || !kept.Counted()
      || (kept.value == Num(0) && (ctx.payroll.Some? || ctx.expense.Some?))
  {
    ContextTotal(ctx);
  }

  lemma KeptIsNoText(s: Snapshot, ctx: OdooCtx, rows: seq<Evidence>, ids: set<string>)
    requires !EnforcementRaises(s, ctx, rows, ids) && ActualAfter(s, ctx, ids).Counted()
    ensures ActualAfter(s, ctx, ids).value.Num?
  {
    EnforcedIs(s, ctx, rows, ids);
  }

  function MoneySize(m: Option<Money>): nat {
    if m.Some? then Abs(m.value.value) else 0
  }

  /** The total of a prompted draft, when every extracted category is backed. */
  lemma PromptedTotal(s: Snapshot, ctx: OdooCtx, rows: seq<Evidence>, ids: set<string>)
    requires PromptedOnly(s)
    requires Backed(ctx.payroll, ids) == ctx.payroll && Backed(ctx.expense, ids) == ctx.expense
    ensures
      var kept, total := ActualAfter(s, ctx, ids), Enforced(s, ctx, rows, ids).At(TotalIncurred);
      if kept.Counted() || ctx.payroll.Some? || ctx.expense.Some?
      then total.available && total.value == Num(Spend(kept) + MoneySize(ctx.payroll) + MoneySize(ctx.expense))
      else total == NOT_AVAILABLE
  {
    EnforcedIs(s, ctx, rows, ids);
    PromptedFigures(s, ctx, rows, ids);
  }

  /** The figures of a prompted draft: extracted, but for the actual cost. */
  lemma PromptedFigures(s: Snapshot, ctx: OdooCtx, rows: seq<Evidence>, ids: set<string>)
    requires PromptedOnly(s)
    ensures
      var f := DraftFigures(s, ctx, rows, ids);
      && f.payroll == Filled(Backed(ctx.payroll, ids), NOT_AVAILABLE)
      && f.expense == Filled(Backed(ctx.expense, ids), NOT_AVAILABLE)
      && f.total == NOT_AVAILABLE
  {}

  /** They differ for a draft that quotes a cost of its own over a pack that holds a project record only. */
  lemma TwoTotalsDiffer(project: Evidence)
    requires !project.isCostLine && project.category == OtherCategory && ',' !in project.id
    ensures
      var s := Snapshot(map[ActualCost := Node(Num(5), One(project.id), true)], None);
      var ctx, e := ContextOf([project]), Enforced(s, ContextOf([project]), [project], {project.id});
      !EnforcementRaises(s, ctx, [project], {project.id}) && ctx.TotalIncurred() == None
          && AsOption(e.At(TotalIncurred)) == Some(5)
  {
    var s := Snapshot(map[ActualCost := Node(Num(5), One(project.id), true)], None);
    var rows := [project];
    assert rows[..0] == [];
    assert CostLines(rows) == CostLines([]) && CostTallyOf([]).hasAmount == false;
    assert TallyOf(rows, PAYROLL_CATEGORIES, PAYROLL_FIELDS, None) ==
        TallyOf([], PAYROLL_CATEGORIES, PAYROLL_FIELDS, None);
    assert TallyOf(rows, EXPENSE_CATEGORIES, EXPENSE_FIELDS, None) ==
        TallyOf([], EXPENSE_CATEGORIES, EXPENSE_FIELDS, None);
    EnforcedIs(s, ContextOf(rows), rows, {project.id});
    PromptedFigures(s, ContextOf(rows), rows, {project.id});
  }

  // ---------------------------------------------------------------------------------------------
  // The order of the Odoo rows does not matter
  // ---------------------------------------------------------------------------------------------

  function SumBy(rows: seq<Evidence>, f: Evidence -> int): int {
    if rows == [] then 0 else SumBy(rows[..|rows| - 1], f) + f(rows[|rows| - 1])
  }

  function Without(rows: seq<Evidence>, i: nat): seq<Evidence>
    requires i < |rows|
  {
    rows[..i] + rows[i + 1..]
  }

  lemma {:induction false} SumByWithout(rows: seq<Evidence>, f: Evidence -> int, i: nat)
    requires i < |rows|
    ensures SumBy(rows, f) == SumBy(Without(rows, i), f) + f(rows[i])
  {
    var n := |rows| - 1;
    if i == n {
      assert Without(rows, i) == rows[..n];
    } else {
      SumByWithout(rows[..n], f, i);
      assert Without(rows, i)[..n - 1] == Without(rows[..n], i);
    }
  }

  lemma {:induction false} SumByPermuted(a: seq<Evidence>, b: seq<Evidence>, f: Evidence -> int)
    requires multiset(a) == multiset(b)
    ensures SumBy(a, f) == SumBy(b, f)
    decreases |a|
  {
    if a == [] {
      assert |multiset(b)| == 0;
    } else {
      var n := |a| - 1;
      var x := a[n];
      assert a == a[..n] + [x];
      assert x in multiset(b);
      var i :| 0 <= i < |b| && b[i] == x;
      assert b == b[..i] + [x] + b[i + 1..];
      assert multiset(Without(b, i)) == multiset(b) - multiset{x};
      SumByPermuted(a[..n], Without(b, i), f);
      SumByWithout(b, f, i);
    }
  }

  function Contributed(m: Option<int>): int {
    if m.Some? then m.value else 0
  }

  lemma {:induction false} TallyMeaning(rows: seq<Evidence>, categories: set<Category>, fields: seq<Field>)
    ensures
      var t := TallyOf(rows, categories, fields, None);
      && t.total == SumBy(rows, e => Contributed(CategoryAmount(e, categories, fields)))
      && (t.found <==> exists e :: e in rows && CategoryAmount(e, categories, fields).Some?)
      && (t.eid != "" <==> exists e :: e in rows && CategoryAmount(e, categories, fields).Some? && e.id != "")
  {
    if rows != [] {
      TallyMeaning(rows[..|rows| - 1], categories, fields);
      assert rows == rows[..|rows| - 1] + [rows[|rows| - 1]];
    }
  }

  function LineAmount(e: Evidence): Option<int> {
    if e.isCostLine then CostAmount(e) else None
  }

  lemma CostTallySnoc(lines: seq<Evidence>, line: Evidence)
    ensures
      var before, after := CostTallyOf(lines), CostTallyOf(lines + [line]);
      && after.total == before.total + Contributed(CostAmount(line))
      && after.hasAmount == (before.hasAmount || CostAmount(line).Some?)
  {
    assert (lines + [line])[..|lines|] == lines;
  }

  lemma CostLinesStep(rows: seq<Evidence>)
    requires rows != []
    ensures
      var before, after := CostTallyOf(CostLines(rows[..|rows| - 1])), CostTallyOf(CostLines(rows));
      && after.total == before.total + Contributed(LineAmount(rows[|rows| - 1]))
      && after.hasAmount == (before.hasAmount || LineAmount(rows[|rows| - 1]).Some?)
  {
    CostTallySnoc(CostLines(rows[..|rows| - 1]), rows[|rows| - 1]);
  }

  lemma {:induction false} LinesTotal(rows: seq<Evidence>)
    ensures CostTallyOf(CostLines(rows)).total == SumBy(rows, e => Contributed(LineAmount(e)))
  {
    if rows != [] {
      LinesTotal(rows[..|rows| - 1]);
      CostLinesStep(rows);
    }
  }

  lemma {:induction false} LinesHaveAmount(rows: seq<Evidence>)
    ensures CostTallyOf(CostLines(rows)).hasAmount <==> exists e :: e in rows && LineAmount(e).Some?
  {
    if rows != [] {
      LinesHaveAmount(rows[..|rows| - 1]);
      CostLinesStep(rows);
      assert rows == rows[..|rows| - 1] + [rows[|rows| - 1]];
    }
  }

  lemma SameElements(a: seq<Evidence>, b: seq<Evidence>)
    requires multiset(a) == multiset(b)
    ensures forall e :: e in a <==> e in b
  {
    forall e
      ensures e in a <==> e in b
    {
      assert e in a <==> e in multiset(a);
      assert e in b <==> e in multiset(b);
    }
  }

  lemma CategoryPermuted(a: seq<Evidence>, b: seq<Evidence>, categories: set<Category>, fields: seq<Field>)
    requires multiset(a) == multiset(b)
    ensures
      var x, y := SumCategory(a, categories, fields, None), SumCategory(b, categories, fields, None);
      x.Some? == y.Some? && (x.Some? ==> x.value.value == y.value.value)
  {
    SameElements(a, b);
    TallyMeaning(a, categories, fields);
    TallyMeaning(b, categories, fields);
    SumByPermuted(a, b, e => Contributed(CategoryAmount(e, categories, fields)));
  }

  /** Reordering the Odoo rows changes no incurred figure and no total of the extraction. */
  lemma ContextIgnoresOrder(a: seq<Evidence>, b: seq<Evidence>)
    requires multiset(a) == multiset(b)
    ensures
      var x, y := ContextOf(a), ContextOf(b);
      && x.hasAmount == y.hasAmount && x.totalAmount == y.totalAmount
      && SameValue(x.payroll, y.payroll) && SameValue(x.expense, y.expense)
  {
    SameElements(a, b);
    LinesTotal(a);
    LinesTotal(b);
    LinesHaveAmount(a);
    LinesHaveAmount(b);
    SumByPermuted(a, b, e => Contributed(LineAmount(e)));
    CategoryPermuted(a, b, PAYROLL_CATEGORIES, PAYROLL_FIELDS);
    CategoryPermuted(a, b, EXPENSE_CATEGORIES, EXPENSE_FIELDS);
  }

  /** Both absent, or of the same value. */
  predicate SameValue(a: Option<Money>, b: Option<Money>) {
    a.Some? == b.Some? && (a.Some? ==> a.value.value == b.value.value)
  }

  /** The actual cost kept over the rows: the same amount whatever their order. */
  lemma KeptIgnoresOrder(s: Snapshot, x: OdooCtx, y: OdooCtx, ids: set<string>)
    requires x.hasAmount == y.hasAmount && x.totalAmount == y.totalAmount
    requires x.hasAmount ==> CostBacked(x, ids) && CostBacked(y, ids)
    ensures
      var a, b := ActualAfter(s, x, ids), ActualAfter(s, y, ids);
      a.Counted() == b.Counted() && Spend(a) == Spend(b)
  {}

  /** The total recomputed in the snapshot, over reordered rows. */
  lemma SnapshotTotalIgnoresOrder(s: Snapshot, a: seq<Evidence>, b: seq<Evidence>, ids: set<string>)
    requires PromptedOnly(s) && multiset(a) == multiset(b) && IdsOf(a) <= ids
    ensures
      var x := Enforced(s, ContextOf(a), a, ids).At(TotalIncurred);
      var y := Enforced(s, ContextOf(b), b, ids).At(TotalIncurred);
      x.available == y.available && x.value == y.value
  {
    SameElements(a, b);
    assert IdsOf(a) == IdsOf(b);
    ContextIgnoresOrder(a, b);
    OrderedTotals(s, ContextOf(a), ContextOf(b), a, b, ids) by {
      if ContextOf(a).hasAmount {
        CostIdIsKnown(a, ids);
        CostIdIsKnown(b, ids);
      }
      CategoriesAreBacked(a, ids);
      CategoriesAreBacked(b, ids);
    }
  }

  lemma OrderedTotals(s: Snapshot, x: OdooCtx, y: OdooCtx, a: seq<Evidence>, b: seq<Evidence>, ids: set<string>)
    requires PromptedOnly(s) && x.hasAmount == y.hasAmount && x.totalAmount == y.totalAmount
    requires x.hasAmount ==> CostBacked(x, ids) && CostBacked(y, ids)
    requires SameValue(x.payroll, y.payroll) && SameValue(x.expense, y.expense)
    requires Backed(x.payroll, ids) == x.payroll && Backed(x.expense, ids) == x.expense
    requires Backed(y.payroll, ids) == y.payroll && Backed(y.expense, ids) == y.expense
    ensures
      var p, q := Enforced(s, x, a, ids).At(TotalIncurred), Enforced(s, y, b, ids).At(TotalIncurred);
      p.available == q.available && p.value == q.value
  {
    KeptIgnoresOrder(s, x, y, ids);
    PromptedTotal(s, x, a, ids);
    PromptedTotal(s, y, b, ids);
  }

  /** Reordering the Odoo rows changes neither the total quoted in the summary nor the one in the snapshot. */
  lemma TotalsIgnoreOrder(s: Snapshot, a: seq<Evidence>, b: seq<Evidence>, ids: set<string>)
    requires multiset(a) == multiset(b)
    ensures
      var x, y := ContextOf(a), ContextOf(b);
      && x.hasAmount == y.hasAmount && x.totalAmount == y.totalAmount && x.TotalIncurred() == y.TotalIncurred()
      && (PromptedOnly(s) && IdsOf(a) <= ids ==>
            var p, q := Enforced(s, x, a, ids).At(TotalIncurred), Enforced(s, y, b, ids).At(TotalIncurred);
            p.available == q.available && p.value == q.value)
  {
    ContextIgnoresOrder(a, b);
    ContextTotal(ContextOf(a));
    ContextTotal(ContextOf(b));
    if PromptedOnly(s) && IdsOf(a) <= ids {
      SnapshotTotalIgnoresOrder(s, a, b, ids);
    }
  }
}
