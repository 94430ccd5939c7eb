/**
  The report drafting node: from whatever the drafting model returned to the final report
  (apps/edr/graph/node_12_draft_json.py).
*/
module Drafting {
  import opened Wrappers
  import opened SourceTypes
  import opened Answers
  import opened Finance
  import opened Citations

  datatype Kind = FinancialReport | SalaryReport | OtherReport

  /**
    What the node is given besides the draft; `salaryEvidence` is the verdict of the salary policy,
    and `managementQuestion` tells whether the query asks for a management decision.
  */
  datatype Request = Request(
    pack: seq<Evidence>, kind: Kind, canSeeFinance: bool, salaryEvidence: bool, managementQuestion: bool)

  function Filter(pack: seq<Evidence>, keep: Evidence -> bool): seq<Evidence> {
    if pack == [] then []
    else Filter(pack[..|pack| - 1], keep) + (if keep(pack[|pack| - 1]) then [pack[|pack| - 1]] else [])
  }

  function OdooRows(pack: seq<Evidence>): seq<Evidence> {
    Filter(pack, (e: Evidence) => e.sourceType.Odoo?)
  }

  /** Documents first, then e-mails. */
  function Documents(pack: seq<Evidence>): seq<Evidence> {
    Filter(pack, (e: Evidence) => e.sourceType.SharePoint? || e.sourceType.OwnCloud?)
    + Filter(pack, (e: Evidence) => e.sourceType.Email?)
  }

  /** The ids of the items that have one. */
  function NonBlankIds(items: seq<Evidence>): seq<string> {
    if items == [] then []
    else NonBlankIds(items[..|items| - 1]) + (if items[|items| - 1].id != "" then [items[|items| - 1].id] else [])
  }

  /** One claim for each id. */
  function SingleClaims(ids: seq<string>): (r: seq<Item>)
    ensures |r| == |ids| && forall i :: 0 <= i < |r| ==> r[i] == Citing([ids[i]])
  {
    seq(|ids|, i requires 0 <= i < |ids| => Citing([ids[i]]))
  }

  // ---------------------------------------------------------------------------------------------
  // The deterministic executive summary
  // ---------------------------------------------------------------------------------------------

  function MaybeId(id: Option<string>): seq<string> {
    if id.Some? && id.value != "" then [id.value] else []
  }

  function MoneyId(m: Option<Money>): seq<string> {
    if m.Some? then MaybeId(Some(m.value.eid)) else []
  }

  /** The ids behind the figures an executive summary quotes, in the order it quotes them. */
  function FinancialIds(ctx: OdooCtx): seq<string> {
    MoneyId(NonZero(ctx.contract)) + MoneyId(NonZero(ctx.estimate))
    + (if ctx.hasAmount then MaybeId(ctx.best) else [])
    + MoneyId(ctx.payroll) + MoneyId(ctx.expense)
    + (if |ctx.Incurred()| > 1 then MaybeId(ctx.TotalIncurredId()) else [])
  }

  function BasicSummary(ctx: OdooCtx, documents: seq<Evidence>): seq<Item> {
    var figures, read, records := FinancialIds(ctx), NonBlankIds(Take(documents, 3)), NonBlankIds(ctx.projectRecords);
    if figures != [] then [Citing(Take(Distinct(figures), 5))]
    else if read != [] then [Citing(read)]
    else if records != [] then [Citing(Take(Distinct(records), 3))]
    else []
  }

  // ---------------------------------------------------------------------------------------------
  // Findings of a financial report
  // ---------------------------------------------------------------------------------------------

  const LABELLED_FIGS := [ContractValue, Estimate, ActualCost, PayrollCost, ExpenseCost, CommittedCost, TotalIncurred]

  /** A figure is reported when it is available, has a value, and cites something. */
  predicate Shown(n: Node) {
    n.Counted() && n.eid.Ids() != []
  }

  function ShownRefs(s: Snapshot, figs: seq<Fig>): seq<Ref> {
    if figs == [] then []
    else ShownRefs(s, figs[..|figs| - 1]) + (if Shown(s.At(figs[|figs| - 1])) then [s.At(figs[|figs| - 1]).eid] else [])
  }

  function AllIds(refs: seq<Ref>): seq<string> {
    if refs == [] then [] else AllIds(refs[..|refs| - 1]) + refs[|refs| - 1].Ids()
  }

  /** One claim for each reported figure. */
  function RefClaims(refs: seq<Ref>): (r: seq<Item>)
    ensures |r| == |refs| && forall i :: 0 <= i < |r| ==> r[i] == CitingRef(refs[i])
  {
    seq(|refs|, i requires 0 <= i < |refs| => CitingRef(refs[i]))
  }

  predicate HasVariance(s: Snapshot) {
    s.variance.Some? && s.variance.value.value != Null
  }

  function VarianceFinding(s: Snapshot): seq<Item> {
    if HasVariance(s) then if s.variance.value.eids != [] then [Citing(s.variance.value.eids)] else []
    else
      var shown := ShownRefs(s, LABELLED_FIGS);
      if shown != [] then [Citing(Take(Distinct(AllIds(shown)), 2))] else []
  }

  function SnapshotFindings(s: Snapshot, ctx: OdooCtx): seq<Item> {
    var findings := RefClaims(ShownRefs(s, LABELLED_FIGS)) + VarianceFinding(s);
    var records := NonBlankIds(ctx.projectRecords);
    Take(if findings == [] && records != [] then [Citing(Take(Distinct(records), 2))] else findings, 8)
  }

  /**
    Writing the findings raises when a reported figure, or a variance with ids, is no number, or
    when the finding in place of a variance meets a list where an id should be.
  */
  predicate FindingsRaise(s: Snapshot) {
    || (exists fig :: fig in LABELLED_FIGS && Shown(s.At(fig)) && s.At(fig).value.Text?)
    || (HasVariance(s) && s.variance.value.eids != [] && s.variance.value.value.Text?)
    || (!HasVariance(s) && exists fig :: fig in LABELLED_FIGS && Shown(s.At(fig)) && s.At(fig).eid.Several?)
  }

  /** New findings, a new summary if there is one, and nothing in the analytical sections. */
  function ForcedSections(sections: map<Section, SectionValue>, findings: seq<Item>, summary: Option<seq<Item>>)
    : map<Section, SectionValue>
  {
    var found := sections[KeyFindings := Items(findings)];
    var led := if summary.Some? then found[ExecutiveSummary := Items(summary.value)] else found;
    led[RootCauses := Items([])][DelayAnalysis := Items([])][ContractualImplications := Items([])]
  }

  function ForcedSummary(ctx: OdooCtx): Option<seq<Item>> {
    if ctx.projectRecords != [] || ctx.hasAmount then Some(BasicSummary(ctx, [])) else None
  }

  /** Keep a financial report Odoo-led. */
  function Force(r: Report, ctx: OdooCtx): Report {
    r.(sections := ForcedSections(r.sections, SnapshotFindings(r.snapshot, ctx), ForcedSummary(ctx)),
       answer := EMPTY_ANSWER)
  }

  // ---------------------------------------------------------------------------------------------
  // The deterministic report
  // ---------------------------------------------------------------------------------------------

  function NumberedSources(items: seq<Evidence>): seq<SourceEntry> {
    seq(|items|, i requires 0 <= i < |items| => SourceEntry("S" + Decimal(i + 1), items[i].title, items[i].uri))
  }

  /** One claim for each document whose content belongs to `topic`. */
  function TopicClaims(documents: seq<Evidence>, topic: Topic): seq<Item> {
    if documents == [] then []
    else
      TopicClaims(documents[..|documents| - 1], topic)
      + (if documents[|documents| - 1].topic == topic then [Citing([documents[|documents| - 1].id])] else [])
  }

  /** The evidence a rebuilt report may use. */
  function Usable(req: Request): seq<Evidence> {
    if req.kind.FinancialReport? then Filter(req.pack, (e: Evidence) => e.sourceType.Odoo? || e.financial) else req.pack
  }

  function InitialSnapshot(req: Request, ctx: OdooCtx): Snapshot {
    Snapshot(map[Budget := NOT_AVAILABLE,
                 ActualCost := if req.canSeeFinance && ctx.hasAmount && MaybeId(ctx.best) != []
                               then Node(Num(ctx.totalAmount), One(ctx.best.value), true) else NOT_AVAILABLE],
             Some(Variance(Null, None, [])))
  }

  function BuiltSections(req: Request, ctx: OdooCtx, documents: seq<Evidence>): map<Section, SectionValue> {
    var findings := if req.kind.FinancialReport? then [] else documents;
    map[ExecutiveSummary := Items(BasicSummary(ctx, documents)),
        KeyFindings := Items(TopicClaims(findings, GeneralTopic)),
        RootCauses := Items([]),
        DelayAnalysis := Items(TopicClaims(findings, DelayTopic)),
        ContractualImplications := Items(TopicClaims(findings, ContractTopic)),
        RecommendedActions := Items([])]
  }

  /** An empty answer, with a note on what is missing. */
  const UNAVAILABLE_ANSWER := EMPTY_ANSWER.(missing := NOTE)

  function Build(req: Request): Report {
    var rows, documents := OdooRows(Usable(req)), Documents(Usable(req));
    var ctx := ContextOf(rows);
    var r := Report(BuiltSections(req, ctx, documents),
                    Categories(InitialSnapshot(req, ctx), ctx, rows, IdsOf(Usable(req))),
                    NumberedSources(documents + rows), UNAVAILABLE_ANSWER);
    if req.kind.FinancialReport? then Force(r, ctx) else r
  }

  /** The first id of each source, or the first id of the pack. */
  function SalaryCitations(pack: seq<Evidence>): seq<string> {
    var cited := FirstId(pack, SharePoint) + FirstId(pack, Email) + FirstId(pack, Odoo);
    if cited == [] && pack != [] && pack[0].id != "" then [pack[0].id] else cited
  }

  function FirstId(pack: seq<Evidence>, sourceType: SourceType): seq<string> {
    if pack == [] then []
    else if pack[0].sourceType == sourceType then MaybeId(Some(pack[0].id))
    else FirstId(pack[1..], sourceType)
  }

  /** The availability report for a salary question without salary evidence. */
  function SalaryAvailability(pack: seq<Evidence>): Report {
    var cited := SalaryCitations(pack);
    var first := Take(cited, 1);
    Report(map[ExecutiveSummary := Items(if cited != [] then [Citing(first)] else []),
               KeyFindings := Items(SingleClaims(cited)),
               RootCauses := Items([]),
               DelayAnalysis := Items([]),
               ContractualImplications := Items([]),
               RecommendedActions := Items([Citing(first)])],
           Snapshot(map[Budget := NOT_AVAILABLE, ActualCost := NOT_AVAILABLE], Some(Variance(Null, None, []))),
           seq(|pack|, i requires 0 <= i < |pack| => SourceEntry(pack[i].id, pack[i].title, pack[i].uri)),
           UNAVAILABLE_ANSWER)
  }

  // ---------------------------------------------------------------------------------------------
  // Validation, and the summary of last resort
  // ---------------------------------------------------------------------------------------------

  predicate ValidId(id: string, ids: set<string>) {
    id in ids && id != "" && id != "ev_..."
  }

  /** A claim cites something, and its ids, once renamed by `synth`, are all valid. */
  predicate ValidItem(item: Item, synth: map<string, string>, ids: set<string>) {
    item.Claim? ==>
      && Flatten(item.ids) != []
      && forall i :: 0 <= i < |Flatten(item.ids)| ==> ValidId(Resolve(synth, Flatten(item.ids)[i]), ids)
  }

  /** What validation makes of a report; examining a text that is no string raises. */
  datatype Verdict = Valid | Invalid | Raised

  function ItemsVerdict(items: seq<Item>, synth: map<string, string>, ids: set<string>): Verdict {
    if items == [] then Valid
    else
      var before, last := ItemsVerdict(items[..|items| - 1], synth, ids), items[|items| - 1];
      if before != Valid || last.Other? then before
      else if !ValidItem(last, synth, ids) then Invalid
      else if last.wording.NotText? then Raised
      else Valid
  }

  function SectionsVerdict(r: Report, sections: seq<Section>, synth: map<string, string>, ids: set<string>): Verdict {
    if sections == [] then Valid
    else
      var before, last := SectionsVerdict(r, sections[..|sections| - 1], synth, ids), sections[|sections| - 1];
      if before != Valid then before
      else if last !in r.sections || !r.sections[last].Items? then Invalid
      else ItemsVerdict(r.sections[last].items, synth, ids)
  }

  predicate AllLists(r: Report) {
    forall s: Section :: s in r.sections && r.sections[s].Items?
  }

  predicate HasGenuine(items: seq<Item>) {
    exists i :: 0 <= i < |items| && items[i].Claim? && items[i].wording.Genuine?
  }

  /** Validation after `synth` has renamed the ids: the first flaw decides, and one claim must be genuine. */
  function VerdictOn(r: Report, synth: map<string, string>, ids: set<string>): Verdict {
    var flaws := SectionsVerdict(r, SECTIONS, synth, ids);
    if flaws == Valid && !(exists s: Section :: HasGenuine(r.Claims(s))) then Invalid else flaws
  }

  /** Iterating a bare string yields its characters. */
  function Characters(s: string): seq<string> {
    seq(|s|, i requires 0 <= i < |s| => [s[i]])
  }

  /** Iterating an unflattened list; `None` when it holds a non-empty list, which cannot be hashed later. */
  function RawElems(elems: seq<RawId>): Option<seq<string>> {
    if elems == [] then Some([])
    else
      var before :- RawElems(elems[..|elems| - 1]);
      match elems[|elems| - 1]
      case Id(e) => Some(before + MaybeId(Some(e)))
      case Group(es) => if es == [] then Some(before) else None
      case NullId => Some(before)
  }

  function RawRefs(items: seq<Item>): Option<seq<string>> {
    if items == [] then Some([])
    else
      var before :- RawRefs(items[..|items| - 1]);
      match items[|items| - 1]
      case Other => None
      case Claim(_, raw) =>
        match raw
        case Bare(e) => Some(before + Characters(e))
        case Many(elems) =>
          var more :- RawElems(elems);
          Some(before + more)
  }

  predicate NeedsSummary(r: Report, pack: seq<Evidence>) {
    && ExecutiveSummary in r.sections && r.sections[ExecutiveSummary] == Items([])
    && pack != [] && r.Claims(KeyFindings) != []
  }

  /** Fill an empty executive summary from the first three findings; `None` when that raises. */
  function SummaryEnforced(r: Report, pack: seq<Evidence>): Option<Report> {
    if !NeedsSummary(r, pack) then Some(r)
    else
      var refs :- RawRefs(Take(r.Claims(KeyFindings), 3));
      var few := Take(Distinct(refs), 5);
      Some(if few == [] then r else r.(sections := r.sections[ExecutiveSummary := Items([Citing(few)])]))
  }

  // ---------------------------------------------------------------------------------------------
  // The whole node
  // ---------------------------------------------------------------------------------------------

  function PackContext(req: Request): OdooCtx {
    ContextOf(OdooRows(req.pack))
  }

  /** The draft with its snapshot corrected once and its invented ids replaced; `None` when that raises. */
  function Prepared(norm: string -> string, req: Request, draft: Report): Option<Report> {
    var ctx, ids := PackContext(req), IdsOf(req.pack);
    if FirstPassRaises(draft.snapshot, ctx, ids) then None
    else Remap(norm, draft.(snapshot := FromOdoo(draft.snapshot, ctx, ids)), req.pack)
  }

  /** The draft when it holds up, or the deterministic report; `None` when that raises. */
  function Normalised(norm: string -> string, req: Request, draft: Option<Report>): Option<Report> {
    if draft.None? then Some(Build(req))
    else
      var prepared :- Prepared(norm, req, draft.value);
      match VerdictOn(prepared, map[], IdsOf(req.pack))
      case Valid => Some(prepared)
      case Invalid => Some(Build(req))
      case Raised => None
  }

  function SnapshotEnforced(req: Request, r: Report): Report {
    r.(snapshot := Enforced(r.snapshot, PackContext(req), OdooRows(req.pack), IdsOf(req.pack)))
  }

  function Synthesised(req: Request, r: Report): Report {
    if req.kind.FinancialReport? then Force(SnapshotEnforced(req, r), PackContext(req)) else SnapshotEnforced(req, r)
  }

  /** Enforcing the snapshot, or writing the findings of a financial report from it, raises. */
  predicate SynthesisRaises(req: Request, r: Report) {
    || EnforcementRaises(r.snapshot, PackContext(req), OdooRows(req.pack), IdsOf(req.pack))
    || (req.kind.FinancialReport? && FindingsRaise(SnapshotEnforced(req, r).snapshot))
  }

  /** A financial report lists what it cites; any other keeps its sources. */
  function Resourced(req: Request, r: Report): Report {
    if req.kind.FinancialReport? then r.(sources := SourcesOfFinancial(r, req.pack)) else r
  }

  /** Snapshot, claims and sources corrected; `None` when that raises. */
  function Settled(norm: string -> string, req: Request, r: Report): Option<Report> {
    if SynthesisRaises(req, r) then None
    else
      var remapped :- Remap(norm, Synthesised(req, r), req.pack);
      SummaryEnforced(Resourced(req, remapped), req.pack)
  }

  /** The ids of the first object among the items. */
  function FirstClaimIds(items: seq<Item>): seq<string> {
    if items == [] then []
    else if items[0].Claim? then Flatten(items[0].ids)
    else FirstClaimIds(items[1..])
  }

  /** An answer that was not written is empty; one to a management question is completed, or `None` when that raises. */
  function AnswerEnforced(req: Request, r: Report): Option<Report> {
    var given := if r.answer.Unwritten? then EMPTY_ANSWER else r.answer;
    if !req.managementQuestion then Some(r.(answer := given))
    else
      var enriched :- Enriched(given, FirstClaimIds(r.Claims(KeyFindings)));
      Some(r.(answer := enriched))
  }

  /** The corrections every report goes through; `None` when one raises. */
  function Corrected(norm: string -> string, req: Request, r: Report): Option<Report> {
    var settled :- Settled(norm, req, r);
    AnswerEnforced(req, settled)
  }

  /**
    The final report; `None` when the node raises. `draft` is `None` when nothing could be parsed.
    Before it is corrected the length of the executive answer is logged, which raises without one.
  */
  function Run(norm: string -> string, req: Request, draft: Option<Report>): Option<Report> {
    if req.kind.SalaryReport? && !req.salaryEvidence then Some(SalaryAvailability(req.pack))
    else
      var r :- Normalised(norm, req, draft);
      if !r.answer.Measurable() then None else Corrected(norm, req, r)
  }
}
