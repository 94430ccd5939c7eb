/**
  Financial extraction and enforcement of the report drafting node
  (apps/edr/graph/node_12_draft_json.py). Money is counted in whole fils, so rounding to two
  decimals is the identity.
*/
module Finance {
  import opened Wrappers
  import opened SourceTypes

  /** Numeric metadata fields that carry money. */
  datatype Field =
    | FAmount | FTotal | FAmountTotal | FPriceSubtotal | FPriceTotal | FAmountUntaxed
    | FTotalAmount | FUnitAmount | FWoAmount | FEstimationAmount

  datatype Category = PurchaseOrders | PurchaseOrderLines | PayrollAllocation | HrExpenses | OtherCategory

  /** What the content of a document would be in a rebuilt report. */
  datatype Topic = NoContent | DelayTopic | ContractTopic | GeneralTopic

  /**
    One evidence item. `figures` holds the metadata fields that coerce to a number, `date` is 0 for
    an undated item, and `financial` is the verdict of the financial evidence policy.
  */
  datatype Evidence = Evidence(
    id: string, sourceType: SourceType, title: string, uri: string, financial: bool, topic: Topic,
    isCostLine: bool, excerptAmount: Option<int>, date: nat, category: Category, figures: map<Field, int>)

  function IdsOf(pack: seq<Evidence>): set<string> {
    set e | e in pack :: e.id
  }

  function Abs(n: int): nat {
    if n < 0 then -n else n
  }

  // ---------------------------------------------------------------------------------------------
  // Extraction from the Odoo rows
  // ---------------------------------------------------------------------------------------------

  /** A figure and the evidence id that backs it. */
  datatype Money = Money(value: int, eid: string)

  function FirstFigure(figures: map<Field, int>, fields: seq<Field>): Option<int> {
    if fields == [] then None
    else if fields[0] in figures then Some(figures[fields[0]])
    else FirstFigure(figures, fields[1..])
  }

  function CostAmount(line: Evidence): Option<int> {
    if FAmount in line.figures then Some(line.figures[FAmount]) else line.excerptAmount
  }

  const COMMITTED_CATEGORIES := {PurchaseOrders, PurchaseOrderLines}
  const COMMITTED_FIELDS := [FAmountTotal, FPriceSubtotal, FPriceTotal, FAmountUntaxed]
  const PAYROLL_CATEGORIES := {PayrollAllocation}
  const PAYROLL_FIELDS := [FAmount, FTotal]
  const EXPENSE_CATEGORIES := {HrExpenses}
  const EXPENSE_FIELDS := [FTotalAmount, FUnitAmount]

  /** What a row adds to a category: nothing unless it is in it and carries one of its fields. */
  function CategoryAmount(row: Evidence, categories: set<Category>, fields: seq<Field>): Option<int> {
    if row.category in categories then FirstFigure(row.figures, fields) else None
  }

  /** The loop variables of a category sum; `eid` is "" until a backing id is found. */
  datatype Tally = Tally(total: int, found: bool, eid: string)

  function TallyOf(rows: seq<Evidence>, categories: set<Category>, fields: seq<Field>,
                   known: Option<set<string>>): Tally
  {
    if rows == [] then Tally(0, false, "")
    else
      var before := TallyOf(rows[..|rows| - 1], categories, fields, known);
      var row := rows[|rows| - 1];
      match CategoryAmount(row, categories, fields)
      case None => before
      case Some(amount) =>
        Tally(before.total + amount, true,
              if before.eid == "" && (known.None? || row.id in known.value) then row.id else before.eid)
  }

  /** The total of one category with an id that backs it; `known` restricts the ids when given. */
  function SumCategory(rows: seq<Evidence>, categories: set<Category>, fields: seq<Field>,
                       known: Option<set<string>>): Option<Money>
  {
    var t := TallyOf(rows, categories, fields, known);
    if t.found && t.eid != "" then Some(Money(t.total, t.eid)) else None
  }

  function CostLines(rows: seq<Evidence>): seq<Evidence> {
    if rows == [] then []
    else if rows[|rows| - 1].isCostLine then CostLines(rows[..|rows| - 1]) + [rows[|rows| - 1]]
    else CostLines(rows[..|rows| - 1])
  }

  function ProjectRecords(rows: seq<Evidence>): seq<Evidence> {
    if rows == [] then []
    else if !rows[|rows| - 1].isCostLine then ProjectRecords(rows[..|rows| - 1]) + [rows[|rows| - 1]]
    else ProjectRecords(rows[..|rows| - 1])
  }

  /** The loop variables of the cost-line loop. */
  datatype CostTally = CostTally(total: int, hasAmount: bool, bestDate: nat, best: Option<string>)

  function CostTallyOf(lines: seq<Evidence>): CostTally {
    if lines == [] then CostTally(0, false, 0, None)
    else
      var before := CostTallyOf(lines[..|lines| - 1]);
      var line := lines[|lines| - 1];
      var amount := CostAmount(line);
      CostTally(
        if amount.Some? then before.total + amount.value else before.total,
        before.hasAmount || amount.Some?,
        if line.date > before.bestDate then line.date else before.bestDate,
        if line.date > before.bestDate then Some(line.id) else before.best)
  }

  /** The first cost line that carries an amount and an id. */
  function FirstValued(lines: seq<Evidence>): Option<string> {
    if lines == [] then None
    else if CostAmount(lines[0]).Some? && lines[0].id != "" then Some(lines[0].id)
    else FirstValued(lines[1..])
  }

  /** Newest first, ties in their order of arrival. */
  function InsertByDate(line: Evidence, sorted: seq<Evidence>): seq<Evidence> {
    if sorted == [] then [line]
    else if sorted[0].date < line.date then [line] + sorted
    else [sorted[0]] + InsertByDate(line, sorted[1..])
  }

  function ByDate(lines: seq<Evidence>): seq<Evidence> {
    if lines == [] then [] else InsertByDate(lines[|lines| - 1], ByDate(lines[..|lines| - 1]))
  }

  function FirstWith(records: seq<Evidence>, field: Field): Option<Money> {
    if records == [] then None
    else if field in records[0].figures then Some(Money(records[0].figures[field], records[0].id))
    else FirstWith(records[1..], field)
  }

  function Positive(m: Option<Money>): Option<Money> {
    if m.Some? then Some(Money(Abs(m.value.value), m.value.eid)) else None
  }

  datatype OdooCtx = OdooCtx(
    projectRecords: seq<Evidence>,
    totalAmount: int,
    hasAmount: bool,
    best: Option<string>,
    sampleLines: seq<Evidence>,
    contract: Option<Money>,
    estimate: Option<Money>,
    payroll: Option<Money>,
    expense: Option<Money>)
  {
    /** The components of the incurred cost, in the order they are added up. */
    function Incurred(): seq<nat> {
      (if hasAmount then [Abs(totalAmount)] else [])
      + (if payroll.Some? then [Abs(payroll.value.value)] else [])
      + (if expense.Some? then [Abs(expense.value.value)] else [])
    }

    function TotalIncurred(): Option<nat> {
      if Incurred() == [] then None else Some(Sum(Incurred()))
    }

    /** The id quoted beside the total: that of its first component. */
    function TotalIncurredId(): Option<string> {
      if hasAmount then best
      else if payroll.Some? then Some(payroll.value.eid)
      else if expense.Some? then Some(expense.value.eid)
      else None
    }
  }

  function Sum(ns: seq<nat>): nat {
    if ns == [] then 0 else ns[0] + Sum(ns[1..])
  }

  function Take<T>(s: seq<T>, n: nat): seq<T> {
    if |s| <= n then s else s[..n]
  }

  function ContextOf(rows: seq<Evidence>): OdooCtx {
    var lines := CostLines(rows);
    var t := CostTallyOf(lines);
    OdooCtx(
      ProjectRecords(rows),
      t.total,
      t.hasAmount,
      if t.best.None? && t.hasAmount then FirstValued(lines) else t.best,
      Take(ByDate(lines), 15),
      FirstWith(ProjectRecords(rows), FWoAmount),
      FirstWith(ProjectRecords(rows), FEstimationAmount),
      Positive(SumCategory(rows, PAYROLL_CATEGORIES, PAYROLL_FIELDS, None)),
      Positive(SumCategory(rows, EXPENSE_CATEGORIES, EXPENSE_FIELDS, None)))
  }

  /** The category loop as the program runs it. */
  method ComputeCategory(rows: seq<Evidence>, categories: set<Category>, fields: seq<Field>, known: Option<set<string>>)
    returns (m: Option<Money>)
    ensures m == SumCategory(rows, categories, fields, known)
  {
    var total, found, eid := 0, false, "";
    for i := 0 to |rows|
      invariant Tally(total, found, eid) == TallyOf(rows[..i], categories, fields, known)
    {
      assert rows[..i + 1][..i] == rows[..i];
      var row := rows[i];
      if row.category !in categories {
        continue;
      }
      var amount := FirstFigure(row.figures, fields);
      if amount.None? {
        continue;
      }
      total, found := total + amount.value, true;
      if eid == "" && row.id != "" && (known.None? || row.id in known.value) {
        eid := row.id;
      }
    }
    assert rows[..|rows|] == rows;
    m := if found && eid != "" then Some(Money(total, eid)) else None;
  }

  /** The extraction as the program runs it. */
  method ExtractOdooContext(rows: seq<Evidence>) returns (ctx: OdooCtx)
    ensures ctx == ContextOf(rows)
  {
    var projectRecords: seq<Evidence>, costLines: seq<Evidence> := [], [];
    for i := 0 to |rows|
      invariant projectRecords == ProjectRecords(rows[..i]) && costLines == CostLines(rows[..i])
    {
      assert rows[..i + 1][..i] == rows[..i];
      if rows[i].isCostLine {
        costLines := costLines + [rows[i]];
      } else {
        projectRecords := projectRecords + [rows[i]];
      }
    }
    assert rows[..|rows|] == rows;

    var total, hasAmount, bestDate: nat, best: Option<string> := 0, false, 0, None;
    for i := 0 to |costLines|
      invariant CostTally(total, hasAmount, bestDate, best) == CostTallyOf(costLines[..i])
    {
      assert costLines[..i + 1][..i] == costLines[..i];
      var amount := CostAmount(costLines[i]);
      if amount.Some? {
        total, hasAmount := total + amount.value, true;
      }
      if costLines[i].date > bestDate {
        bestDate, best := costLines[i].date, Some(costLines[i].id);
      }
    }
    assert costLines[..|costLines|] == costLines;
    if best.None? && hasAmount {
      best := FirstValued(costLines);
    }

    var payroll := ComputeCategory(rows, PAYROLL_CATEGORIES, PAYROLL_FIELDS, None);
    var expense := ComputeCategory(rows, EXPENSE_CATEGORIES, EXPENSE_FIELDS, None);
    ctx := OdooCtx(projectRecords, total, hasAmount, best, Take(ByDate(costLines), 15),
                   FirstWith(projectRecords, FWoAmount), FirstWith(projectRecords, FEstimationAmount),
                   Positive(payroll), Positive(expense));
  }

  // ---------------------------------------------------------------------------------------------
  // The financial snapshot and its enforcement
  // ---------------------------------------------------------------------------------------------

  datatype Fig =
    | Budget | ContractValue | Estimate | ActualCost | PayrollCost | ExpenseCost | CommittedCost | TotalIncurred

  /** What a draft may write as an amount: null, a number, or a string, list or object, empty or not. */
  datatype Amount = Null | Num(n: int) | Text(empty: bool)
  {
    predicate Truthy() { (Num? && n != 0) || (Text? && !empty) }

    /** The absolute value; of a number only. */
    function Size(): nat { if Num? then Abs(n) else 0 }
  }

  /** What a draft may write as an evidence id: null, a string, or a list of strings. */
  datatype Ref = NoRef | One(id: string) | Several(ids: seq<string>)
  {
    /** The ids it cites once flattened; a falsy value cites none. */
    function Ids(): seq<string> {
      match this
      case NoRef => []
      case One(id) => if id == "" then [] else [id]
      case Several(ids) => ids
    }

    predicate In(known: set<string>) { One? && id in known }
  }

  datatype Node = Node(value: Amount, eid: Ref, available: bool)
  {
    /** Available, with some value. */
    predicate Counted() { available && value != Null }
  }

  const NOT_AVAILABLE := Node(Null, NoRef, false)

  datatype Formula = EstimateMinusActual | EstimateMinusTotal | OtherFormula

  /** A variance; `eids` are its ids, flattened. */
  datatype Variance = Variance(value: Amount, formula: Option<Formula>, eids: seq<string>)

  /** Figures absent from `nodes` are keys the draft did not write, or wrote as something else than an object. */
  datatype Snapshot = Snapshot(nodes: map<Fig, Node>, variance: Option<Variance>)
  {
    function At(fig: Fig): Node {
      if fig in nodes then nodes[fig] else NOT_AVAILABLE
    }
  }

  function SplitComma(s: string): seq<string> {
    if s == "" then [""]
    else if s[0] == ',' then [""] + SplitComma(s[1..])
    else var rest := SplitComma(s[1..]); [[s[0]] + rest[0]] + rest[1..]
  }

  predicate Blank(c: char) {
    c == ' ' || c == '\t' || c == '\n' || c == '\r'
  }

  function Strip(s: string): string {
    if s != "" && Blank(s[0]) then Strip(s[1..])
    else if s != "" && Blank(s[|s| - 1]) then Strip(s[..|s| - 1])
    else s
  }

  /** The first comma-separated candidate that is a known id. */
  function FirstKnown(candidates: seq<string>, ids: set<string>): Option<string> {
    if candidates == [] then None
    else if Strip(candidates[0]) in ids then Some(Strip(candidates[0]))
    else FirstKnown(candidates[1..], ids)
  }

  function OneId(node: Node, ids: set<string>): Node {
    if node.eid.One? && ',' in node.eid.id then
      var known := FirstKnown(SplitComma(node.eid.id), ids);
      if known.Some? then node.(eid := One(known.value)) else node
    else node
  }

  function FirstSampled(lines: seq<Evidence>, ids: set<string>): Option<string> {
    if lines == [] then None
    else if lines[0].id in ids then Some(lines[0].id)
    else FirstSampled(lines[1..], ids)
  }

  /** The id that backs the analytic total: the best line's, or the first sampled one that is known. */
  function CostId(ctx: OdooCtx, ids: set<string>): string {
    var best := if ctx.best.Some? then ctx.best.value else "";
    if best in ids then best
    else var sampled := FirstSampled(ctx.sampleLines, ids); if sampled.Some? then sampled.value else best
  }

  /** The analytic lines give an amount, and an id of the pack to back it. */
  predicate CostBacked(ctx: OdooCtx, ids: set<string>) {
    ctx.hasAmount && CostId(ctx, ids) in ids
  }

  function BoundActual(node: Node, ctx: OdooCtx, ids: set<string>): Node {
    if CostBacked(ctx, ids) then Node(Num(ctx.totalAmount), One(CostId(ctx, ids)), true) else OneId(node, ids)
  }

  function EnforcedActual(node: Node, ctx: OdooCtx, ids: set<string>): Node {
    var bound := BoundActual(node, ctx, ids);
    if bound.available && !bound.eid.In(ids) then NOT_AVAILABLE else bound
  }

  /** Looking up an available actual cost's id raises when that id is a list. */
  predicate FirstPassRaises(s: Snapshot, ctx: OdooCtx, ids: set<string>) {
    ActualCost in s.nodes && s.nodes[ActualCost].available && s.nodes[ActualCost].eid.Several? && !CostBacked(ctx, ids)
  }

  /** First pass: budget is never available, and the actual cost is the analytic sum or has a known id. */
  function FromOdoo(s: Snapshot, ctx: OdooCtx, ids: set<string>): Snapshot {
    var noBudget := if Budget in s.nodes then s.nodes[Budget := NOT_AVAILABLE] else s.nodes;
    s.(nodes := if ActualCost in noBudget
                then noBudget[ActualCost := EnforcedActual(noBudget[ActualCost], ctx, ids)] else noBudget)
  }

  /** Set a figure when it is backed; otherwise leave what is there, or an empty node. */
  function Put(s: Snapshot, fig: Fig, m: Option<Money>): Snapshot {
    s.(nodes := s.nodes[fig := Filled(m, s.At(fig))])
  }

  /** The node a figure ends with: its extracted value when there is one, else what the draft had. */
  function Filled(m: Option<Money>, draft: Node): Node {
    if m.Some? then Node(Num(m.value.value), One(m.value.eid), true) else draft
  }

  function Backed(m: Option<Money>, ids: set<string>): Option<Money> {
    if m.Some? && m.value.eid in ids then m else None
  }

  function NonZero(m: Option<Money>): Option<Money> {
    if m.Some? && m.value.value != 0 then m else None
  }

  const INCURRED_FIGS := [ActualCost, PayrollCost, ExpenseCost]

  /** The absolute values of the counted figures, with their ids. */
  function Parts(s: Snapshot, figs: seq<Fig>): seq<(nat, Ref)> {
    if figs == [] then []
    else if s.At(figs[0]).Counted() then [(s.At(figs[0]).value.Size(), s.At(figs[0]).eid)] + Parts(s, figs[1..])
    else Parts(s, figs[1..])
  }

  function SumParts(parts: seq<(nat, Ref)>): nat {
    if parts == [] then 0 else parts[0].0 + SumParts(parts[1..])
  }

  function WithTotal(s: Snapshot): Snapshot {
    var parts := Parts(s, INCURRED_FIGS);
    s.(nodes := s.nodes[TotalIncurred :=
      if parts != [] then Node(Num(SumParts(parts)), parts[0].1, true) else s.At(TotalIncurred)])
  }

  /** The ids of two references, flattened; a falsy one is skipped. */
  function TwoRefs(a: Ref, b: Ref): seq<string> {
    a.Ids() + b.Ids()
  }

  /** The spend the variance is measured against, and the formula's name. */
  function Spent(s: Snapshot): (Node, Formula) {
    if |Parts(s, INCURRED_FIGS)| > 1 && s.At(TotalIncurred).available then (s.At(TotalIncurred), EstimateMinusTotal)
    else (s.At(ActualCost), EstimateMinusActual)
  }

  predicate VarianceDue(s: Snapshot) {
    var est, spent := s.At(Estimate), Spent(s).0;
    est.available && spent.available && est.value.Truthy() && spent.value != Null
  }

  function WithVariance(s: Snapshot): Snapshot {
    if VarianceDue(s) then
      var est, spent := s.At(Estimate), Spent(s).0;
      s.(variance := Some(Variance(Num((if est.value.Num? then est.value.n else 0) - spent.value.Size()),
                                   Some(Spent(s).1), TwoRefs(est.eid, spent.eid))))
    else if s.variance.None? then s.(variance := Some(Variance(Null, None, [])))
    else s
  }

  /** What is extracted for a figure, when an id of the pack backs it. */
  function Extracted(fig: Fig, ctx: OdooCtx, rows: seq<Evidence>, ids: set<string>): Option<Money> {
    match fig
    case ContractValue => Backed(NonZero(ctx.contract), ids)
    case Estimate => Backed(NonZero(ctx.estimate), ids)
    case CommittedCost => SumCategory(rows, COMMITTED_CATEGORIES, COMMITTED_FIELDS, Some(ids))
    case PayrollCost => Backed(ctx.payroll, ids)
    case ExpenseCost => Backed(ctx.expense, ids)
    case _ => None
  }

  /** The five figures taken from Odoo, each only when an id of the pack backs it. */
  function WithFigures(s: Snapshot, ctx: OdooCtx, rows: seq<Evidence>, ids: set<string>): Snapshot {
    var s1 := Put(s, ContractValue, Extracted(ContractValue, ctx, rows, ids));
    var s2 := Put(s1, Estimate, Extracted(Estimate, ctx, rows, ids));
    var s3 := Put(s2, CommittedCost, Extracted(CommittedCost, ctx, rows, ids));
    var s4 := Put(s3, PayrollCost, Extracted(PayrollCost, ctx, rows, ids));
    Put(s4, ExpenseCost, Extracted(ExpenseCost, ctx, rows, ids))
  }

  /** Second pass. */
  function Categories(s: Snapshot, ctx: OdooCtx, rows: seq<Evidence>, ids: set<string>): Snapshot {
    WithVariance(WithTotal(WithFigures(s, ctx, rows, ids)))
  }

  /** Adding up a part that is no number raises. */
  predicate TotalRaises(f: Snapshot) {
    exists fig :: fig in INCURRED_FIGS && f.At(fig).Counted() && f.At(fig).value.Text?
  }

  /** Measuring a spend against an estimate that is no number raises. */
  predicate VarianceRaises(t: Snapshot) {
    VarianceDue(t) && t.At(Estimate).value.Text?
  }

  predicate SecondPassRaises(s: Snapshot, ctx: OdooCtx, rows: seq<Evidence>, ids: set<string>) {
    var f := WithFigures(s, ctx, rows, ids);
    TotalRaises(f) || VarianceRaises(WithTotal(f))
  }

  /** Both passes, as every report goes through them. */
  function Enforced(s: Snapshot, ctx: OdooCtx, rows: seq<Evidence>, ids: set<string>): Snapshot {
    Categories(FromOdoo(s, ctx, ids), ctx, rows, ids)
  }

  predicate EnforcementRaises(s: Snapshot, ctx: OdooCtx, rows: seq<Evidence>, ids: set<string>) {
    FirstPassRaises(s, ctx, ids) || SecondPassRaises(FromOdoo(s, ctx, ids), ctx, rows, ids)
  }
}
