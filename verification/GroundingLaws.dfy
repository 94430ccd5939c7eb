/**
  When the node produces a report, and when that report cites retrieved evidence only: the exact
  conditions, told from the draft's own sections, sources and figures.
*/
module GroundingLaws {
  import opened Wrappers
  import opened SourceTypes
  import opened Answers
  import opened AnswerLaws
  import opened Finance
  import opened FinanceLaws
  import opened Citations
  import opened CitationLaws
  import opened Drafting
  import opened DraftingLaws
  import opened QuotationLaws
  import opened BuiltLaws

  // ---------------------------------------------------------------------------------------------
  // Validation of the draft itself
  // ---------------------------------------------------------------------------------------------

  /** What renaming does to one claim is what validation sees. */
  lemma RenamedItemValidity(item: Item, synth: map<string, string>, ids: set<string>)
    requires item.Claim? && Flatten(item.ids) != []
    ensures
      var renamed := RemapItem(synth, item);
      && renamed.Claim? && renamed.wording == item.wording
      && (ValidItem(renamed, map[], ids) <==> ValidItem(item, synth, ids))
  {
    RemappedIds(synth, item);
    var before, after := Flatten(item.ids), Flatten(RemapItem(synth, item).ids);
    forall i | 0 <= i < |before|
      ensures Resolve(map[], after[i]) == Resolve(synth, before[i])
    {
      assert after[i] == ResolveAll(synth, before)[i];
    }
  }

  lemma {:induction false} RenamedItemsVerdict(items: seq<Item>, synth: map<string, string>, ids: set<string>)
    ensures ItemsVerdict(RemapItems(synth, items), map[], ids) == ItemsVerdict(items, synth, ids)
  {
    if items != [] {
      var n := |items| - 1;
      RenamedItemsVerdict(items[..n], synth, ids);
      assert RemapItems(synth, items)[..n] == RemapItems(synth, items[..n]);
      if items[n].Claim? && Flatten(items[n].ids) != [] {
        RenamedItemValidity(items[n], synth, ids);
      }
    }
  }

  lemma {:induction false} RenamedSectionsVerdict(r: Report, sections: seq<Section>, synth: map<string, string>,
                                                  ids: set<string>)
    ensures SectionsVerdict(RemapSections(synth, r), sections, map[], ids) == SectionsVerdict(r, sections, synth, ids)
  {
    if sections != [] {
      var n := |sections| - 1;
      RenamedSectionsVerdict(r, sections[..n], synth, ids);
      if sections[n] in r.sections && r.sections[sections[n]].Items? {
        RenamedItemsVerdict(r.sections[sections[n]].items, synth, ids);
      }
    }
  }

  lemma {:induction false} VerdictIgnoresRest(a: Report, b: Report, sections: seq<Section>, synth: map<string, string>,
                                              ids: set<string>)
    requires a.sections == b.sections
    ensures SectionsVerdict(a, sections, synth, ids) == SectionsVerdict(b, sections, synth, ids)
  {
    if sections != [] { VerdictIgnoresRest(a, b, sections[..|sections| - 1], synth, ids); }
  }

  /** The sections after preparing, and a flawless or flawed draft is the one validation sees. */
  lemma PreparedVerdict(norm: string -> string, req: Request, draft: Report)
    requires Prepared(norm, req, draft).Some?
    ensures
      var synth := Synthetic(norm, draft.sources, req.pack);
      VerdictOn(Prepared(norm, req, draft).value, map[], IdsOf(req.pack)) == VerdictOn(draft, synth, IdsOf(req.pack))
  {
    var synth, ids := Synthetic(norm, draft.sources, req.pack), IdsOf(req.pack);
    var prepared := Prepared(norm, req, draft).value;
    if synth == map[] {
      VerdictIgnoresRest(prepared, draft, SECTIONS, map[], ids);
      assert forall s :: prepared.Claims(s) == draft.Claims(s);
    } else {
      var renamed := RemapSections(synth, draft);
      RenamedSectionsVerdict(draft, SECTIONS, synth, ids);
      VerdictIgnoresRest(prepared, renamed, SECTIONS, map[], ids);
      forall s
        ensures prepared.Claims(s) == RemapItems(synth, draft.Claims(s))
        ensures HasGenuine(prepared.Claims(s)) <==> HasGenuine(draft.Claims(s))
      {
        RenamedGenuine(draft.Claims(s), synth);
      }
    }
  }

  lemma RenamedGenuine(items: seq<Item>, synth: map<string, string>)
    ensures HasGenuine(RemapItems(synth, items)) <==> HasGenuine(items)
  {
    var after := RemapItems(synth, items);
    forall i | 0 <= i < |items|
      ensures after[i].Claim? == items[i].Claim? && (items[i].Claim? ==> after[i].wording == items[i].wording)
    {}
    if i :| 0 <= i < |items| && items[i].Claim? && items[i].wording.Genuine? { assert after[i].wording.Genuine?; }
    if i :| 0 <= i < |after| && after[i].Claim? && after[i].wording.Genuine? { assert items[i].wording.Genuine?; }
  }

  lemma {:induction false} ValidItems(items: seq<Item>, synth: map<string, string>, ids: set<string>)
    requires ItemsVerdict(items, synth, ids) == Valid
    ensures forall i :: 0 <= i < |items| ==> ValidItem(items[i], synth, ids)
  {
    if items != [] { ValidItems(items[..|items| - 1], synth, ids); }
  }

  lemma {:induction false} ValidSections(r: Report, sections: seq<Section>, synth: map<string, string>,
                                         ids: set<string>)
    requires SectionsVerdict(r, sections, synth, ids) == Valid
    ensures forall s :: s in sections ==>
                s in r.sections && r.sections[s].Items? && ItemsVerdict(r.Claims(s), synth, ids) == Valid
  {
    if sections != [] {
      ValidSections(r, sections[..|sections| - 1], synth, ids);
      assert sections == sections[..|sections| - 1] + [sections[|sections| - 1]];
    }
  }

  /** A draft that passes holds six lists of valid claims, and the pack is not empty. */
  lemma ValidMeans(r: Report, synth: map<string, string>, ids: set<string>)
    requires VerdictOn(r, synth, ids) == Valid
    ensures AllLists(r) && ids != {}
    ensures forall s, i :: 0 <= i < |r.Claims(s)| ==> ValidItem(r.Claims(s)[i], synth, ids)
  {
    ValidSections(r, SECTIONS, synth, ids);
    forall s: Section
      ensures s in SECTIONS
    {
      AllSectionsListed(s);
    }
    forall s, i | 0 <= i < |r.Claims(s)|
      ensures ValidItem(r.Claims(s)[i], synth, ids)
    {
      ValidItems(r.Claims(s), synth, ids);
    }
    var s: Section :| HasGenuine(r.Claims(s));
    var i :| 0 <= i < |r.Claims(s)| && r.Claims(s)[i].Claim? && r.Claims(s)[i].wording.Genuine?;
    assert ValidItem(r.Claims(s)[i], synth, ids);
    assert ValidId(Resolve(synth, Flatten(r.Claims(s)[i].ids)[0]), ids);
  }

  /** A report that passes validation cites known ids only. */
  lemma ValidClaimsAreGrounded(r: Report, ids: set<string>)
    requires VerdictOn(r, map[], ids) == Valid
    ensures Grounded(r, ids)
  {
    ValidMeans(r, map[], ids);
    forall s, i | 0 <= i < |r.Claims(s)|
      ensures ItemGrounded(r.Claims(s)[i], ids)
    {
      assert ValidItem(r.Claims(s)[i], map[], ids);
    }
  }

  // ---------------------------------------------------------------------------------------------
  // The conditions on the draft
  // ---------------------------------------------------------------------------------------------

  function Renames(norm: string -> string, req: Request, draft: Report): map<string, string> {
    Synthetic(norm, draft.sources, req.pack)
  }

  function FiguresFor(req: Request, draft: Report): Figures {
    DraftFigures(draft.snapshot, PackContext(req), OdooRows(req.pack), IdsOf(req.pack))
  }

  /** No section that is neither a list nor iterable, and no list under an unavailable cost's id, stops a rename. */
  ghost predicate CanRename(req: Request, draft: Report) {
    && (forall s :: s in draft.sections ==> !draft.sections[s].Scalar?)
    && !(FiguresFor(req, draft).actual.eid.Several? && FiguresFor(req, draft).actual.eid.ids != [])
  }

  /** The summary of a financial report is left empty by its figures and records, or by the draft. */
  ghost predicate SummaryLeftEmpty(req: Request, draft: Report) {
    var ctx := PackContext(req);
    if ctx.projectRecords != [] || ctx.hasAmount then BasicSummary(ctx, []) == []
    else ExecutiveSummary in draft.sections && draft.sections[ExecutiveSummary] == Items([])
  }

  /** The references of the figures a report shows, in order. */
  function RefsOfNodes(nodes: seq<Node>): seq<Ref> {
    if nodes == [] then []
    else RefsOfNodes(nodes[..|nodes| - 1]) + (if Shown(nodes[|nodes| - 1]) then [nodes[|nodes| - 1].eid] else [])
  }

  /** One of the first three figures shown cites a list. */
  ghost predicate LeadsWithList(f: Figures) {
    var refs := RefsOfNodes(f.Nodes());
    exists i :: 0 <= i < |refs| && i < 3 && refs[i].Several?
  }

  /** Its own title or reference leads from the evidence with this id to another one. */
  ghost predicate Confused(norm: string -> string, pack: seq<Evidence>, id: string) {
    var e := EvidenceById(pack, id);
    e.Some? && Mislabels(norm, SourceEntry(id, e.value.title, e.value.uri), pack, id)
  }

  predicate CitesAs(synth: map<string, string>, item: Item, id: string) {
    item.Claim? && id in ResolveAll(synth, Flatten(item.ids))
  }

  /** A claim of the draft, once renamed, or its actual cost cites the id. */
  ghost predicate CitedOnceRenamed(norm: string -> string, req: Request, draft: Report, id: string) {
    || (exists s, i :: 0 <= i < |draft.Claims(s)| && CitesAs(Renames(norm, req, draft), draft.Claims(s)[i], id))
    || FiguresFor(req, draft).actual.eid == One(id)
  }

  /** A rename happens, and what is cited after it is confused with other evidence: it renames once more. */
  ghost predicate RenamesAgain(norm: string -> string, req: Request, draft: Report) {
    && Renames(norm, req, draft) != map[]
    && exists id :: CitedOnceRenamed(norm, req, draft, id) && Confused(norm, req.pack, id)
  }

  /** An accepted financial draft is corrected without raising: its figures can be written down. */
  ghost predicate FinancialProceeds(norm: string -> string, req: Request, draft: Report) {
    && !FiguresUnwritable(FiguresFor(req, draft), draft.snapshot.variance)
    && (SummaryLeftEmpty(req, draft) && LeadsWithList(FiguresFor(req, draft)) ==> RenamesAgain(norm, req, draft))
  }

  /**
    Any other accepted draft is: if a summary is missing, the leading findings are claims, and
    without nested lists.
  */
  ghost predicate SummaryProceeds(norm: string -> string, req: Request, draft: Report) {
    NeedsSummary(draft, req.pack) ==>
      if Renames(norm, req, draft) == map[] then AllCollectable(Leading(draft))
      else forall i :: 0 <= i < |Leading(draft)| ==> Leading(draft)[i].Claim?
  }

  /** An answer to a management question is completed without raising; a financial report starts an empty one. */
  ghost predicate AnswerProceeds(req: Request, answer: Answer) {
    req.managementQuestion && !req.kind.FinancialReport? ==> Enrichable(answer)
  }

  /** The node produces a report from this draft. */
  ghost predicate DraftProceeds(norm: string -> string, req: Request, draft: Option<Report>) {
    if (req.kind.SalaryReport? && !req.salaryEvidence) || draft.None? then true
    else
      var d, synth := draft.value, Renames(norm, req, draft.value);
      && !FirstPassRaises(d.snapshot, PackContext(req), IdsOf(req.pack))
      && (synth != map[] ==> CanRename(req, d))
      && match VerdictOn(d, synth, IdsOf(req.pack))
         case Raised => false
         case Invalid => true
         case Valid =>
           && d.answer.Measurable() && AnswerProceeds(req, d.answer) && !FiguresFor(req, d).Raises()
           && if req.kind.FinancialReport? then FinancialProceeds(norm, req, d) else SummaryProceeds(norm, req, d)
  }

  /** What the node then produces cites retrieved evidence only. */
  ghost predicate DraftCites(norm: string -> string, req: Request, draft: Option<Report>) {
    if req.kind.SalaryReport? && !req.salaryEvidence then SalaryCitations(req.pack) != []
    else if draft.None? then true
    else
      var d, synth := draft.value, Renames(norm, req, draft.value);
      VerdictOn(d, synth, IdsOf(req.pack)) == Valid ==>
        if req.kind.FinancialReport? then FiguresCite(FiguresFor(req, d), d.snapshot.variance, IdsOf(req.pack))
        else NeedsSummary(d, req.pack) && synth == map[] ==> CharactersOk(Leading(d), IdsOf(req.pack))
  }

  // ---------------------------------------------------------------------------------------------
  // Preparing the draft
  // ---------------------------------------------------------------------------------------------

  /** The actual cost after the first pass never raises in it again, and its figures are the draft's. */
  lemma FirstPassOnce(s: Snapshot, ctx: OdooCtx, rows: seq<Evidence>, ids: set<string>)
    ensures !FirstPassRaises(FromOdoo(s, ctx, ids), ctx, ids)
    ensures DraftFigures(FromOdoo(s, ctx, ids), ctx, rows, ids) == DraftFigures(s, ctx, rows, ids)
    ensures FromOdoo(s, ctx, ids).At(ActualCost) == DraftFigures(s, ctx, rows, ids).actual
  {
    FirstPassIs(s, ctx, rows, ids);
    if ActualCost in s.nodes {
      ActualTwice(s.nodes[ActualCost], ctx, ids);
    }
  }

  /** The draft is prepared exactly when neither the first pass nor the rename raises. */
  lemma PreparedIff(norm: string -> string, req: Request, draft: Report)
    ensures Prepared(norm, req, draft).Some? <==>
      && !FirstPassRaises(draft.snapshot, PackContext(req), IdsOf(req.pack))
      && (Renames(norm, req, draft) != map[] ==> CanRename(req, draft))
  {
    FirstPassOnce(draft.snapshot, PackContext(req), OdooRows(req.pack), IdsOf(req.pack));
  }

  /** What preparing leaves: the draft's figures, and sections that differ only when something is renamed. */
  lemma PreparedIs(norm: string -> string, req: Request, draft: Report)
    requires Prepared(norm, req, draft).Some?
    ensures
      var r, synth := Prepared(norm, req, draft).value, Renames(norm, req, draft);
      && r.snapshot == FromOdoo(draft.snapshot, PackContext(req), IdsOf(req.pack))
      && r.answer == draft.answer
      && (synth == map[] ==> r.sections == draft.sections && r.sources == draft.sources)
      && (synth != map[] ==> r.sections == RemapSections(synth, draft).sections)
  {}

  /** Listed evidence is renamed exactly when it is cited and confused with other evidence. */
  lemma ListedIsRenamedIff(norm: string -> string, sources: seq<SourceEntry>, cited: seq<string>, pack: seq<Evidence>,
                           id: string)
    requires ListsCited(sources, cited, pack)
    ensures id in Synthetic(norm, sources, pack) <==> id in cited && Confused(norm, pack, id)
  {
    RenamedIff(norm, sources, pack, id);
    EvidenceByIdMeaning(pack, id);
    if i :| 0 <= i < |sources| && Mislabels(norm, sources[i], pack, id) {
      assert EntryOfPack(sources[i], pack) && EntryIds(sources)[i] == id;
    }
    if id in cited && Confused(norm, pack, id) {
      var i :| 0 <= i < |sources| && EntryIds(sources)[i] == id;
      assert EntryOfPack(sources[i], pack) && Mislabels(norm, sources[i], pack, id);
    }
  }

  /** What a renamed report cites. */
  lemma RenamedCites(synth: map<string, string>, d: Report, r: Report, id: string)
    requires forall s :: r.Claims(s) == RemapItems(synth, d.Claims(s))
    ensures id in CitedBy(r, SECTIONS) <==> exists s, i :: 0 <= i < |d.Claims(s)| && CitesAs(synth, d.Claims(s)[i], id)
  {
    CitedMeaning(r, id);
    forall s, i | 0 <= i < |d.Claims(s)|
      ensures Cites(r.Claims(s)[i], id) <==> CitesAs(synth, d.Claims(s)[i], id)
    {
      assert r.Claims(s)[i] == RemapItem(synth, d.Claims(s)[i]);
      if d.Claims(s)[i].Claim? { RemappedIds(synth, d.Claims(s)[i]); }
    }
    if ReportCites(r, id) {
      var s :| SomeItemCites(r.Claims(s), id);
      var i :| 0 <= i < |r.Claims(s)| && Cites(r.Claims(s)[i], id);
      assert CitesAs(synth, d.Claims(s)[i], id);
    }
    if s, i :| 0 <= i < |d.Claims(s)| && CitesAs(synth, d.Claims(s)[i], id) {
      assert Cites(r.Claims(s)[i], id);
      assert SomeItemCites(r.Claims(s), id);
    }
  }

  /** The sources the first rename leaves rename something exactly when the draft says so. */
  lemma RenamesAgainIff(norm: string -> string, req: Request, draft: Report)
    requires Prepared(norm, req, draft).Some?
    ensures Synthetic(norm, Prepared(norm, req, draft).value.sources, req.pack) != map[] <==>
                RenamesAgain(norm, req, draft)
  {
    var synth, r := Renames(norm, req, draft), Prepared(norm, req, draft).value;
    PreparedIs(norm, req, draft);
    if synth != map[] {
      var entered := draft.(snapshot := FromOdoo(draft.snapshot, PackContext(req), IdsOf(req.pack)));
      var cited := CitedBy(r, SECTIONS) + ActualCostId(r.snapshot);
      RemapRebuildsSources(norm, entered, req.pack);
      FirstPassOnce(draft.snapshot, PackContext(req), OdooRows(req.pack), IdsOf(req.pack));
      forall id
        ensures id in Synthetic(norm, r.sources, req.pack) <==>
                  CitedOnceRenamed(norm, req, draft, id) && Confused(norm, req.pack, id)
      {
        ListedIsRenamedIff(norm, r.sources, cited, req.pack, id);
        RenamedCites(synth, draft, r, id);
        assert id != "" ==> (id in ActualCostId(r.snapshot) <==> FiguresFor(req, draft).actual.eid == One(id));
      }
      SomeKeyIff(Synthetic(norm, r.sources, req.pack));
    }
  }

  lemma SomeKeyIff(synth: map<string, string>)
    ensures synth != map[] <==> exists id :: id in synth
  {}

  /** Sources whose replacement, if any, only renames ids of the pack. */
  ghost predicate KnownSources(norm: string -> string, r: Report, pack: seq<Evidence>) {
    Synthetic(norm, r.sources, pack).Keys <= IdsOf(pack)
  }

  lemma PreparedHasKnownSources(norm: string -> string, req: Request, draft: Report)
    requires Prepared(norm, req, draft).Some?
    ensures KnownSources(norm, Prepared(norm, req, draft).value, req.pack)
  {
    RemapLeavesOnlyKnownSources(norm, draft.(snapshot := FromOdoo(draft.snapshot, PackContext(req), IdsOf(req.pack))),
                                req.pack);
  }

  // ---------------------------------------------------------------------------------------------
  // Remapping, and the last steps
  // ---------------------------------------------------------------------------------------------

  lemma SameClaims(a: Report, b: Report, known: set<string>)
    requires a.sections == b.sections
    ensures Grounded(a, known) <==> Grounded(b, known)
    ensures FlatReport(a) <==> FlatReport(b)
  {
    assert forall s :: a.Claims(s) == b.Claims(s);
  }

  /** On lists only a listed cost id can stop a remap. */
  lemma ListsAreRemapped(norm: string -> string, r: Report, pack: seq<Evidence>)
    requires AllLists(r) && (Synthetic(norm, r.sources, pack) != map[] ==> !ListsActualCost(r.snapshot))
    ensures Remap(norm, r, pack).Some? && AllLists(Remap(norm, r, pack).value)
    ensures Remap(norm, r, pack).value.snapshot == r.snapshot
    ensures Remap(norm, r, pack).value.answer == r.answer
  {}

  lemma RemapKeepsFlat(norm: string -> string, r: Report, pack: seq<Evidence>)
    requires FlatReport(r) && Remap(norm, r, pack).Some?
    ensures FlatReport(Remap(norm, r, pack).value)
  {
    var synth, after := Synthetic(norm, r.sources, pack), Remap(norm, r, pack).value;
    forall s
      ensures FlatItems(after.Claims(s))
    {
      assert FlatItems(r.Claims(s));
      if synth != map[] {
        assert after.Claims(s) == RemapItems(synth, r.Claims(s));
      }
    }
  }

  /** A rename flattens every claim that cites something. */
  lemma RenamedIsFlat(items: seq<Item>, synth: map<string, string>)
    requires forall i :: 0 <= i < |items| ==> items[i].Claim? ==> Flatten(items[i].ids) != []
    ensures forall i :: 0 <= i < |items| ==>
              if items[i].Claim? then FlatItem(RemapItems(synth, items)[i]) else RemapItems(synth, items)[i] == items[i]
  {}

  /** Listing the sources and filling the summary. */
  lemma LastSteps(req: Request, m: Report, known: set<string>)
    ensures
      var final := SummaryEnforced(Resourced(req, m), req.pack);
      && (final.Some? <==> (NeedsSummary(m, req.pack) ==> AllCollectable(Leading(m))))
      && (final.Some? ==>
            (Grounded(final.value, known) <==>
               Grounded(m, known) && (NeedsSummary(m, req.pack) ==> CharactersOk(Leading(m), known))))
  {
    var listed := Resourced(req, m);
    SameClaims(listed, m, known);
    assert listed.Claims(KeyFindings) == m.Claims(KeyFindings);
    SummaryWrittenIff(listed, req.pack);
    if SummaryEnforced(listed, req.pack).Some? {
      SummaryGroundedIff(listed, req.pack, known);
    }
  }

  lemma LeadingOfRenamed(synth: map<string, string>, before: Report, after: Report)
    requires after.Claims(KeyFindings) == RemapItems(synth, before.Claims(KeyFindings))
    ensures Leading(after) == RemapItems(synth, Leading(before))
  {}

  // ---------------------------------------------------------------------------------------------
  // Accepted drafts that are no financial report
  // ---------------------------------------------------------------------------------------------

  /** The last steps on leading findings that a rename has flattened: they proceed when all are claims. */
  lemma RenamedLeading(items: seq<Item>, synth: map<string, string>, known: set<string>)
    requires forall i :: 0 <= i < |items| ==> items[i].Claim? ==> Flatten(items[i].ids) != []
    ensures
      var after := RemapItems(synth, items);
      && (AllCollectable(after) <==> forall i :: 0 <= i < |items| ==> items[i].Claim?)
      && CharactersOk(after, known)
  {
    var after := RemapItems(synth, items);
    RenamedIsFlat(items, synth);
    forall i | 0 <= i < |items|
      ensures (Collectable(after[i]) <==> items[i].Claim?) && BareOk(after, i, known)
    {
      assert items[i].Claim? ==> FlatItem(after[i]);
      assert !items[i].Claim? ==> after[i] == items[i];
    }
    if AllCollectable(after) {
      forall i | 0 <= i < |items|
        ensures items[i].Claim?
      {
        assert Collectable(after[i]);
      }
    }
  }

  lemma ValidCites(d: Report, synth: map<string, string>, ids: set<string>)
    requires VerdictOn(d, synth, ids) == Valid
    ensures forall s, i :: 0 <= i < |d.Claims(s)| && d.Claims(s)[i].Claim? ==> Flatten(d.Claims(s)[i].ids) != []
  {
    ValidMeans(d, synth, ids);
    forall s, i | 0 <= i < |d.Claims(s)| && d.Claims(s)[i].Claim?
      ensures Flatten(d.Claims(s)[i].ids) != []
    {
      assert ValidItem(d.Claims(s)[i], synth, ids);
    }
  }

  lemma RemapKeepsNeed(norm: string -> string, r: Report, pack: seq<Evidence>)
    requires Remap(norm, r, pack).Some?
    ensures NeedsSummary(Remap(norm, r, pack).value, pack) <==> NeedsSummary(r, pack)
  {
    var synth, after := Synthetic(norm, r.sources, pack), Remap(norm, r, pack).value;
    if synth != map[] {
      assert |after.Claims(KeyFindings)| == |r.Claims(KeyFindings)|;
      if ExecutiveSummary in r.sections && r.sections[ExecutiveSummary].Items? {
        assert |after.Claims(ExecutiveSummary)| == |r.Claims(ExecutiveSummary)|;
      }
    }
  }

  /** The need of a summary, and what it looks at, before and after everything is renamed twice. */
  ghost predicate LeadsAlike(norm: string -> string, req: Request, d: Report, m: Report) {
    && (NeedsSummary(m, req.pack) <==> NeedsSummary(d, req.pack))
    && (Renames(norm, req, d) == map[] ==> Leading(m) == Leading(d))
    && (Renames(norm, req, d) != map[] ==>
          && (AllCollectable(Leading(m)) <==> forall i :: 0 <= i < |Leading(d)| ==> Leading(d)[i].Claim?)
          && CharactersOk(Leading(m), IdsOf(req.pack)))
  }

  lemma PreparedLeads(norm: string -> string, req: Request, d: Report)
    requires Prepared(norm, req, d).Some? && VerdictOn(d, Renames(norm, req, d), IdsOf(req.pack)) == Valid
    ensures LeadsAlike(norm, req, d, Prepared(norm, req, d).value)
  {
    var synth, r := Renames(norm, req, d), Prepared(norm, req, d).value;
    PreparedIs(norm, req, d);
    var entered := d.(snapshot := FromOdoo(d.snapshot, PackContext(req), IdsOf(req.pack)));
    RemapKeepsNeed(norm, entered, req.pack);
    assert NeedsSummary(entered, req.pack) <==> NeedsSummary(d, req.pack) by {
      assert entered.Claims(KeyFindings) == d.Claims(KeyFindings);
    }
    if synth != map[] {
      assert r.Claims(KeyFindings) == RemapItems(synth, d.Claims(KeyFindings));
      LeadingOfRenamed(synth, d, r);
      ValidCites(d, synth, IdsOf(req.pack));
      RenamedLeading(Leading(d), synth, IdsOf(req.pack));
    } else {
      assert r.Claims(KeyFindings) == d.Claims(KeyFindings);
    }
  }

  /** Flat leading findings stay flat when renamed again; without a rename there was none before. */
  lemma SecondRenameLeads(norm: string -> string, req: Request, d: Report, f: Report)
    requires Prepared(norm, req, d).Some? && VerdictOn(d, Renames(norm, req, d), IdsOf(req.pack)) == Valid
    requires
      var r := Prepared(norm, req, d).value;
      f.sections == r.sections && f.sources == r.sources && Remap(norm, f, req.pack).Some?
    ensures LeadsAlike(norm, req, d, Remap(norm, f, req.pack).value)
  {
    var synth, r, m := Renames(norm, req, d), Prepared(norm, req, d).value, Remap(norm, f, req.pack).value;
    var again := Synthetic(norm, f.sources, req.pack);
    PreparedIs(norm, req, d);
    PreparedLeads(norm, req, d);
    RemapKeepsNeed(norm, f, req.pack);
    assert f.Claims(KeyFindings) == r.Claims(KeyFindings);
    assert NeedsSummary(f, req.pack) <==> NeedsSummary(r, req.pack);
    if again == map[] {
      assert m.Claims(KeyFindings) == r.Claims(KeyFindings);
    } else {
      assert synth != map[];
      assert m.Claims(KeyFindings) == RemapItems(again, r.Claims(KeyFindings));
      LeadingOfRenamed(again, r, m);
      PreparedCites(norm, req, d);
      RenamedLeading(Leading(r), again, IdsOf(req.pack));
      PreparedClaims(norm, req, d);
    }
  }

  lemma PreparedCites(norm: string -> string, req: Request, d: Report)
    requires Prepared(norm, req, d).Some? && VerdictOn(d, Renames(norm, req, d), IdsOf(req.pack)) == Valid
    ensures
      var r := Prepared(norm, req, d).value;
      && VerdictOn(r, map[], IdsOf(req.pack)) == Valid
      && forall s, i :: 0 <= i < |r.Claims(s)| && r.Claims(s)[i].Claim? ==> Flatten(r.Claims(s)[i].ids) != []
  {
    PreparedVerdict(norm, req, d);
    ValidCites(Prepared(norm, req, d).value, map[], IdsOf(req.pack));
  }

  lemma PreparedClaims(norm: string -> string, req: Request, d: Report)
    requires Prepared(norm, req, d).Some? && Renames(norm, req, d) != map[]
    ensures
      var r := Prepared(norm, req, d).value;
      (forall i :: 0 <= i < |Leading(r)| ==> Leading(r)[i].Claim?) <==>
          (forall i :: 0 <= i < |Leading(d)| ==> Leading(d)[i].Claim?)
  {
    var synth, r := Renames(norm, req, d), Prepared(norm, req, d).value;
    assert r.Claims(KeyFindings) == RemapItems(synth, d.Claims(KeyFindings));
    LeadingOfRenamed(synth, d, r);
    forall i | 0 <= i < |Leading(d)|
      ensures Leading(r)[i].Claim? <==> Leading(d)[i].Claim?
    {
      assert Leading(r)[i] == RemapItem(synth, Leading(d)[i]);
    }
  }

  /** An accepted draft that is no financial report: when it is corrected, and when the result is grounded. */
  lemma AcceptedOther(norm: string -> string, req: Request, d: Report)
    requires !req.kind.FinancialReport? && Prepared(norm, req, d).Some?
    requires VerdictOn(d, Renames(norm, req, d), IdsOf(req.pack)) == Valid
    ensures
      var final := Settled(norm, req, Prepared(norm, req, d).value);
      && (final.Some? <==> !FiguresFor(req, d).Raises() && SummaryProceeds(norm, req, d))
      && (final.Some? ==>
            (Grounded(final.value, IdsOf(req.pack)) <==>
               (NeedsSummary(d, req.pack) && Renames(norm, req, d) == map[] ==>
                   CharactersOk(Leading(d), IdsOf(req.pack)))))
  {
    var r, ids := Prepared(norm, req, d).value, IdsOf(req.pack);
    var f := SnapshotEnforced(req, r);
    CorrectionRaisesIff(norm, req, d);
    if !EnforcementRaises(r.snapshot, PackContext(req), OdooRows(req.pack), ids) {
      PreparedCites(norm, req, d);
      ValidMeans(r, map[], ids);
      SecondRemapWorks(norm, req, d, f);
      SecondRenameLeads(norm, req, d, f);
      ValidClaimsAreGrounded(r, ids);
      SameClaims(f, r, ids);
      RemapKeepsGrounding(norm, f, req.pack);
      LastSteps(req, Remap(norm, f, req.pack).value, ids);
    }
  }

  /** Enforcing the prepared draft raises exactly when the draft's own figures do. */
  lemma CorrectionRaisesIff(norm: string -> string, req: Request, d: Report)
    requires Prepared(norm, req, d).Some?
    ensures
      var r := Prepared(norm, req, d).value;
      EnforcementRaises(r.snapshot, PackContext(req), OdooRows(req.pack), IdsOf(req.pack)) <==>
          FiguresFor(req, d).Raises()
  {
    var ctx, rows, ids := PackContext(req), OdooRows(req.pack), IdsOf(req.pack);
    PreparedIs(norm, req, d);
    FirstPassOnce(d.snapshot, ctx, rows, ids);
    EnforcedIs(FromOdoo(d.snapshot, ctx, ids), ctx, rows, ids);
  }

  /** The second remap never raises: what could stop it would have stopped the first. */
  lemma SecondRemapWorks(norm: string -> string, req: Request, d: Report, f: Report)
    requires Prepared(norm, req, d).Some?
    requires AllLists(f) && f.sources == Prepared(norm, req, d).value.sources
    requires f.snapshot == SnapshotEnforced(req, Prepared(norm, req, d).value).snapshot
    ensures Remap(norm, f, req.pack).Some?
  {
    var ctx, rows, ids := PackContext(req), OdooRows(req.pack), IdsOf(req.pack);
    PreparedIs(norm, req, d);
    PreparedIff(norm, req, d);
    FirstPassOnce(d.snapshot, ctx, rows, ids);
    EnforcedIs(FromOdoo(d.snapshot, ctx, ids), ctx, rows, ids);
    assert f.snapshot.At(ActualCost) == FiguresFor(req, d).actual;
    ListsAreRemapped(norm, f, req.pack);
  }

  // ---------------------------------------------------------------------------------------------
  // Accepted financial drafts
  // ---------------------------------------------------------------------------------------------

  /** The references shown are those of the figures, in order. */
  lemma {:induction false} ShownAreFigures(e: Snapshot, figs: seq<Fig>, nodes: seq<Node>)
    requires |figs| == |nodes| && forall i :: 0 <= i < |figs| ==> e.At(figs[i]) == nodes[i]
    ensures ShownRefs(e, figs) == RefsOfNodes(nodes)
  {
    if figs != [] {
      ShownAreFigures(e, figs[..|figs| - 1], nodes[..|nodes| - 1]);
    }
  }

  /** A claim with a list of ids that cites something. */
  ghost predicate ListClaim(item: Item) {
    item.Claim? && item.ids.Many? && Flatten(item.ids) != []
  }

  lemma CitingIsListClaim(ids: seq<string>)
    requires ids != []
    ensures ListClaim(Citing(ids)) && Collectable(Citing(ids))
  {
    CitingCites(ids);
  }

  lemma RefIsListClaim(ref: Ref)
    requires ref.Ids() != []
    ensures ListClaim(CitingRef(ref)) && (Collectable(CitingRef(ref)) <==> !ref.Several?)
  {
    RefCites(ref);
    match ref
    case One(id) => CitingIsListClaim([id]);
    case Several(ids) => assert CitingRef(ref).ids.elems[0] == Group(ids);
  }

  /** Each finding is a claim with a list of ids, flat unless it is the finding of a figure that cites a list. */
  lemma FindingAt(s: Snapshot, ctx: OdooCtx, i: nat)
    requires i < |SnapshotFindings(s, ctx)|
    ensures
      var item, shown := SnapshotFindings(s, ctx)[i], ShownRefs(s, LABELLED_FIGS);
      ListClaim(item) && (Collectable(item) <==> !(i < |shown| && shown[i].Several?))
  {
    var shown, records := ShownRefs(s, LABELLED_FIGS), NonBlankIds(ctx.projectRecords);
    var findings := RefClaims(shown) + VarianceFinding(s);
    ShownRefsKnownIff(s, LABELLED_FIGS, {});
    if findings == [] {
      FewOfSome(records, 2);
      CitingIsListClaim(Take(Distinct(records), 2));
    } else if i < |shown| {
      assert findings[i] == CitingRef(shown[i]);
      RefIsListClaim(shown[i]);
    } else {
      assert findings[i] == VarianceFinding(s)[i - |shown|];
      if HasVariance(s) {
        CitingIsListClaim(s.variance.value.eids);
      } else {
        SomeIdsShown(shown);
        FewOfSome(AllIds(shown), 2);
        CitingIsListClaim(Take(Distinct(AllIds(shown)), 2));
      }
    }
  }

  lemma FewOfSome(ids: seq<string>, n: nat)
    requires ids != [] && n > 0
    ensures Take(Distinct(ids), n) != []
  {
    DistinctEmptyIff(ids);
  }

  lemma {:induction false} SomeIdsShown(refs: seq<Ref>)
    requires refs != [] && forall i :: 0 <= i < |refs| ==> refs[i].Ids() != []
    ensures AllIds(refs) != []
  {
    if |refs| > 1 { SomeIdsShown(refs[..|refs| - 1]); }
  }

  /** The leading findings can be collected exactly when no list is among the first three references. */
  lemma FindingsLead(s: Snapshot, ctx: OdooCtx, known: set<string>)
    ensures
      var leading, shown := Take(SnapshotFindings(s, ctx), 3), ShownRefs(s, LABELLED_FIGS);
      && (AllCollectable(leading) <==> forall i :: 0 <= i < |shown| && i < 3 ==> !shown[i].Several?)
      && CharactersOk(leading, known)
      && (forall i :: 0 <= i < |leading| ==> ListClaim(leading[i]))
      && (shown != [] ==> SnapshotFindings(s, ctx) != [])
  {
    var findings, shown := SnapshotFindings(s, ctx), ShownRefs(s, LABELLED_FIGS);
    var leading := Take(findings, 3);
    forall i | 0 <= i < |leading|
      ensures ListClaim(leading[i]) && (Collectable(leading[i]) <==> !(i < |shown| && shown[i].Several?))
      ensures BareOk(leading, i, known)
    {
      FindingAt(s, ctx, i);
    }
    assert |findings| >= (if |shown| < 3 then |shown| else 3);
    if AllCollectable(leading) {
      forall i | 0 <= i < |shown| && i < 3
        ensures !shown[i].Several?
      {
        assert Collectable(leading[i]);
      }
    }
  }

  /** The forced report: grounded exactly when the snapshot cites known ids. */
  lemma ForcedGroundedIff(r: Report, ctx: OdooCtx, known: set<string>)
    requires Grounded(r, known) && ContextKnown(ctx, known)
    ensures Grounded(Force(r, ctx), known) <==> CitesKnown(r.snapshot, known)
  {
    FindingsGroundedIff(r.snapshot, ctx, known);
    BasicSummaryIsGrounded(ctx, [], known);
    ForcedSection(r, ctx, KeyFindings);
    if CitesKnown(r.snapshot, known) {
      forall s
        ensures ItemsGrounded(Force(r, ctx).Claims(s), known)
      {
        ForcedSection(r, ctx, s);
        assert ItemsGrounded(r.Claims(s), known);
      }
    }
  }

  lemma PackContextIsKnown(req: Request)
    ensures ContextKnown(PackContext(req), IdsOf(req.pack))
  {
    PackParts(req.pack);
    IdsOfPart(OdooRows(req.pack), req.pack);
    ContextIsKnown(OdooRows(req.pack), IdsOf(req.pack));
  }

  /** The snapshot a financial draft is forced to follow, told from the draft's figures. */
  lemma FinancialSnapshot(norm: string -> string, req: Request, d: Report)
    requires Prepared(norm, req, d).Some?
    ensures
      var e, f := SnapshotEnforced(req, Prepared(norm, req, d).value).snapshot, FiguresFor(req, d);
      && (FindingsRaise(e) <==> FiguresUnwritable(f, d.snapshot.variance))
      && (CitesKnown(e, IdsOf(req.pack)) <==> FiguresCite(f, d.snapshot.variance, IdsOf(req.pack)))
      && ShownRefs(e, LABELLED_FIGS) == RefsOfNodes(f.Nodes())
  {
    var ctx, rows, ids := PackContext(req), OdooRows(req.pack), IdsOf(req.pack);
    PreparedIs(norm, req, d);
    FirstPassOnce(d.snapshot, ctx, rows, ids);
    EnforcedCitesIff(FromOdoo(d.snapshot, ctx, ids), ctx, rows, ids);
    EnforcedIs(FromOdoo(d.snapshot, ctx, ids), ctx, rows, ids);
    var e, f := SnapshotEnforced(req, Prepared(norm, req, d).value).snapshot, FiguresFor(req, d);
    LabelledNodes(e, f, d.snapshot.variance);
    ShownAreFigures(e, LABELLED_FIGS, f.Nodes());
  }

  /** The forced draft needs a summary exactly when it is left empty and there is a finding. */
  lemma ForcedNeed(norm: string -> string, req: Request, d: Report)
    requires Prepared(norm, req, d).Some? && req.pack != []
    ensures
      var e := SnapshotEnforced(req, Prepared(norm, req, d).value);
      NeedsSummary(Force(e, PackContext(req)), req.pack) <==>
        SummaryLeftEmpty(req, d) && SnapshotFindings(e.snapshot, PackContext(req)) != []
  {
    var ctx := PackContext(req);
    var e := SnapshotEnforced(req, Prepared(norm, req, d).value);
    PreparedIs(norm, req, d);
    ForcedSectionsAt(e.sections, SnapshotFindings(e.snapshot, ctx), ForcedSummary(ctx), ExecutiveSummary);
    ForcedSectionsAt(e.sections, SnapshotFindings(e.snapshot, ctx), ForcedSummary(ctx), KeyFindings);
    RenamedEmptiness(norm, req, d);
  }

  lemma RenamedEmptiness(norm: string -> string, req: Request, d: Report)
    requires Prepared(norm, req, d).Some?
    ensures
      var r := Prepared(norm, req, d).value;
      && (ExecutiveSummary in r.sections <==> ExecutiveSummary in d.sections)
      && (ExecutiveSummary in d.sections ==>
            (r.sections[ExecutiveSummary] == Items([]) <==> d.sections[ExecutiveSummary] == Items([])))
  {
    PreparedIs(norm, req, d);
    var r, synth := Prepared(norm, req, d).value, Renames(norm, req, d);
    if synth != map[] && ExecutiveSummary in d.sections && d.sections[ExecutiveSummary].Items? {
      assert |r.sections[ExecutiveSummary].items| == |d.sections[ExecutiveSummary].items|;
    }
  }

  /** The leading findings of the forced draft after the second rename. */
  lemma ForcedLeads(norm: string -> string, req: Request, f: Report, s: Snapshot, ctx: OdooCtx)
    requires f.Claims(KeyFindings) == SnapshotFindings(s, ctx) && Remap(norm, f, req.pack).Some?
    ensures
      var m, shown := Remap(norm, f, req.pack).value, ShownRefs(s, LABELLED_FIGS);
      && (AllCollectable(Leading(m)) <==>
            || Synthetic(norm, f.sources, req.pack) != map[]
            || forall i :: 0 <= i < |shown| && i < 3 ==> !shown[i].Several?)
      && CharactersOk(Leading(m), IdsOf(req.pack))
  {
    var again, m := Synthetic(norm, f.sources, req.pack), Remap(norm, f, req.pack).value;
    FindingsLead(s, ctx, IdsOf(req.pack));
    if again != map[] {
      assert m.Claims(KeyFindings) == RemapItems(again, f.Claims(KeyFindings));
      LeadingOfRenamed(again, f, m);
      RenamedLeading(Leading(f), again, IdsOf(req.pack));
    } else {
      assert m == f;
    }
  }

  /** An accepted financial draft: when it is corrected, and when the result is grounded. */
  lemma AcceptedFinancial(norm: string -> string, req: Request, d: Report)
    requires req.kind.FinancialReport? && Prepared(norm, req, d).Some?
    requires VerdictOn(d, Renames(norm, req, d), IdsOf(req.pack)) == Valid
    ensures
      var final := Settled(norm, req, Prepared(norm, req, d).value);
      && (final.Some? <==> !FiguresFor(req, d).Raises() && FinancialProceeds(norm, req, d))
      && (final.Some? ==>
            (Grounded(final.value, IdsOf(req.pack)) <==>
               FiguresCite(FiguresFor(req, d), d.snapshot.variance, IdsOf(req.pack))))
  {
    var r, ids := Prepared(norm, req, d).value, IdsOf(req.pack);
    CorrectionRaisesIff(norm, req, d);
    FinancialSnapshot(norm, req, d);
    if !SynthesisRaises(req, r) {
      ForcedSteps(norm, req, d);
    }
  }

  /** Whether the summary of a forced draft can be written, told from the draft. */
  lemma ForcedSummaryProceeds(norm: string -> string, req: Request, d: Report, f: Report)
    requires Prepared(norm, req, d).Some? && req.pack != []
    requires f == Force(SnapshotEnforced(req, Prepared(norm, req, d).value), PackContext(req))
    requires Remap(norm, f, req.pack).Some?
    ensures
      var m := Remap(norm, f, req.pack).value;
      && ((NeedsSummary(m, req.pack) ==> AllCollectable(Leading(m))) <==>
            (SummaryLeftEmpty(req, d) && LeadsWithList(FiguresFor(req, d)) ==> RenamesAgain(norm, req, d)))
      && CharactersOk(Leading(m), IdsOf(req.pack))
  {
    var e, ctx := SnapshotEnforced(req, Prepared(norm, req, d).value), PackContext(req);
    RemapKeepsNeed(norm, f, req.pack);
    ForcedNeed(norm, req, d);
    FinancialSnapshot(norm, req, d);
    ForcedSection(e, ctx, KeyFindings);
    ForcedLeads(norm, req, f, e.snapshot, ctx);
    FindingsLead(e.snapshot, ctx, IdsOf(req.pack));
    RenamesAgainIff(norm, req, d);
  }

  /** The forced draft: remapped, and grounded exactly when the figures cite known ids. */
  lemma ForcedRemaps(norm: string -> string, req: Request, d: Report, f: Report)
    requires Prepared(norm, req, d).Some?
    requires VerdictOn(d, Renames(norm, req, d), IdsOf(req.pack)) == Valid
    requires f == Force(SnapshotEnforced(req, Prepared(norm, req, d).value), PackContext(req))
    ensures
      var remapped := Remap(norm, f, req.pack);
      && req.pack != [] && remapped.Some?
      && (Grounded(remapped.value, IdsOf(req.pack)) <==>
          FiguresCite(FiguresFor(req, d), d.snapshot.variance, IdsOf(req.pack)))
  {
    var r, ids, ctx := Prepared(norm, req, d).value, IdsOf(req.pack), PackContext(req);
    var e := SnapshotEnforced(req, r);
    PreparedCites(norm, req, d);
    ValidMeans(r, map[], ids);
    ValidClaimsAreGrounded(r, ids);
    SameClaims(e, r, ids);
    ForcedIsLists(e, ctx);
    SecondRemapWorks(norm, req, d, f);
    PackContextIsKnown(req);
    ForcedGroundedIff(e, ctx, ids);
    FinancialSnapshot(norm, req, d);
    PreparedHasKnownSources(norm, req, d);
    RemapKeepsGrounding(norm, f, req.pack);
  }

  lemma ForcedSteps(norm: string -> string, req: Request, d: Report)
    requires req.kind.FinancialReport? && Prepared(norm, req, d).Some?
    requires VerdictOn(d, Renames(norm, req, d), IdsOf(req.pack)) == Valid
    ensures
      var remapped := Remap(norm, Synthesised(req, Prepared(norm, req, d).value), req.pack);
      && remapped.Some?
      && var final := SummaryEnforced(Resourced(req, remapped.value), req.pack);
      && (final.Some? <==>
            (SummaryLeftEmpty(req, d) && LeadsWithList(FiguresFor(req, d)) ==> RenamesAgain(norm, req, d)))
      && (final.Some? ==>
            (Grounded(final.value, IdsOf(req.pack)) <==>
               FiguresCite(FiguresFor(req, d), d.snapshot.variance, IdsOf(req.pack))))
  {
    var f := Force(SnapshotEnforced(req, Prepared(norm, req, d).value), PackContext(req));
    ForcedRemaps(norm, req, d, f);
    ForcedSummaryProceeds(norm, req, d, f);
    LastSteps(req, Remap(norm, f, req.pack).value, IdsOf(req.pack));
  }

  // ---------------------------------------------------------------------------------------------
  // The answer to a management question
  // ---------------------------------------------------------------------------------------------

  lemma SettledKeepsAnswer(norm: string -> string, req: Request, r: Report)
    requires Settled(norm, req, r).Some?
    ensures Settled(norm, req, r).value.answer == if req.kind.FinancialReport? then EMPTY_ANSWER else r.answer
  {
    LaterStepsKeepAnswer(norm, req, Synthesised(req, r));
  }

  lemma LaterStepsKeepAnswer(norm: string -> string, req: Request, f: Report)
    requires Remap(norm, f, req.pack).Some?
    requires SummaryEnforced(Resourced(req, Remap(norm, f, req.pack).value), req.pack).Some?
    ensures SummaryEnforced(Resourced(req, Remap(norm, f, req.pack).value), req.pack).value.answer == f.answer
  {}

  lemma AnswerStep(req: Request, r: Report)
    ensures
      var final := AnswerEnforced(req, r);
      && (final.Some? <==> (req.managementQuestion ==> Enrichable(r.answer)))
      && (final.Some? ==> final.value == r.(answer := final.value.answer))
  {
    EnrichedIff(if r.answer.Unwritten? then EMPTY_ANSWER else r.answer, FirstClaimIds(r.Claims(KeyFindings)));
  }

  /** The last correction touches the answer only, and can raise where the others did not. */
  lemma CorrectedIs(norm: string -> string, req: Request, r: Report)
    ensures
      var settled, final := Settled(norm, req, r), Corrected(norm, req, r);
      && (final.Some? <==> settled.Some? && AnswerProceeds(req, r.answer))
      && (final.Some? ==> final.value == settled.value.(answer := final.value.answer))
  {
    if Settled(norm, req, r).Some? {
      SettledKeepsAnswer(norm, req, r);
      AnswerStep(req, Settled(norm, req, r).value);
    }
  }

  // ---------------------------------------------------------------------------------------------
  // Rebuilt reports, and the whole node
  // ---------------------------------------------------------------------------------------------

  /** From a sound report with a tame snapshot every correction works, and ends sound and tame. */
  lemma SoundEndsSound(norm: string -> string, req: Request, r: Report)
    requires Sound(r, IdsOf(req.pack)) && Tame(r.snapshot, IdsOf(req.pack))
    ensures
      var final := Settled(norm, req, r);
      final.Some? && Sound(final.value, IdsOf(req.pack)) && Tame(final.value.snapshot, IdsOf(req.pack))
  {
    var ids, e := IdsOf(req.pack), SnapshotEnforced(req, r);
    EnforcementStaysTame(r.snapshot, PackContext(req), OdooRows(req.pack), ids);
    SameClaims(e, r, ids);
    PackContextIsKnown(req);
    ForcedIsSound(e, PackContext(req), ids);
    var f := Synthesised(req, r);
    assert Sound(f, ids) && Tame(f.snapshot, ids);
    SoundStepsEndSound(norm, req, f);
  }

  lemma SoundStepsEndSound(norm: string -> string, req: Request, f: Report)
    requires Sound(f, IdsOf(req.pack)) && Tame(f.snapshot, IdsOf(req.pack))
    ensures
      var remapped := Remap(norm, f, req.pack);
      && remapped.Some?
      && var final := SummaryEnforced(Resourced(req, remapped.value), req.pack);
      && final.Some? && Sound(final.value, IdsOf(req.pack)) && Tame(final.value.snapshot, IdsOf(req.pack))
  {
    var ids := IdsOf(req.pack);
    ListsAreRemapped(norm, f, req.pack);
    var m := Remap(norm, f, req.pack).value;
    RemapKeepsFlat(norm, f, req.pack);
    RemapKeepsGrounding(norm, f, req.pack);
    LastSteps(req, m, ids);
    assert FlatItems(m.Claims(KeyFindings));
    FlatIsCollectable(Leading(m), ids);
    SameClaims(Resourced(req, m), m, ids);
    SummaryKeepsFlat(Resourced(req, m), req.pack);
  }

  lemma SummaryKeepsFlat(r: Report, pack: seq<Evidence>)
    requires FlatReport(r) && SummaryEnforced(r, pack).Some?
    ensures FlatReport(SummaryEnforced(r, pack).value) && SummaryEnforced(r, pack).value.snapshot == r.snapshot
  {
    var final := SummaryEnforced(r, pack).value;
    forall s
      ensures FlatItems(final.Claims(s))
    {
      assert FlatItems(r.Claims(s));
    }
  }

  /** A rebuilt report always ends sound: no correction of it raises. */
  lemma RebuiltEndsSound(norm: string -> string, req: Request)
    ensures
      var final := Corrected(norm, req, Build(req));
      final.Some? && Sound(final.value, IdsOf(req.pack)) && Tame(final.value.snapshot, IdsOf(req.pack))
  {
    BuiltIsSound(req);
    BuiltSnapshotIsTame(req);
    SoundEndsSound(norm, req, Build(req));
    CorrectedIs(norm, req, Build(req));
    SameClaims(Corrected(norm, req, Build(req)).value, Settled(norm, req, Build(req)).value, IdsOf(req.pack));
  }

  lemma SalaryGroundedIff(pack: seq<Evidence>)
    ensures Grounded(SalaryAvailability(pack), IdsOf(pack)) <==> SalaryCitations(pack) != []
  {
    var cited, r, known := SalaryCitations(pack), SalaryAvailability(pack), IdsOf(pack);
    SalaryCitationsAreKnown(pack);
    SingleClaimsGroundedIff(cited, known);
    CitingCites(Take(cited, 1));
    assert r.Claims(RecommendedActions)[0] == Citing(Take(cited, 1));
    if cited != [] {
      CitingIsGrounded(Take(cited, 1), known);
      forall s
        ensures ItemsGrounded(r.Claims(s), known)
      {
        match s
        case ExecutiveSummary => case KeyFindings => case RootCauses =>
        case DelayAnalysis => case ContractualImplications => case RecommendedActions =>
      }
    }
  }

  lemma {:induction false} FirstIdIsKnown(pack: seq<Evidence>, sourceType: SourceType)
    ensures AllIn(FirstId(pack, sourceType), IdsOf(pack))
  {
    if pack != [] {
      FirstIdIsKnown(pack[1..], sourceType);
      assert forall e :: e in pack[1..] ==> e in pack;
      assert pack[0] in pack;
    }
  }

  lemma SalaryCitationsAreKnown(pack: seq<Evidence>)
    ensures AllIn(SalaryCitations(pack), IdsOf(pack))
  {
    FirstIdIsKnown(pack, SharePoint);
    FirstIdIsKnown(pack, Email);
    FirstIdIsKnown(pack, Odoo);
    if pack != [] {
      assert pack[0] in pack;
    }
  }

  /** What becomes of a draft that could be read: not prepared, refused, accepted or rebuilt. */
  lemma DraftOutcome(norm: string -> string, req: Request, d: Report)
    requires !(req.kind.SalaryReport? && !req.salaryEvidence)
    ensures
      var final, prepared, synth := Run(norm, req, Some(d)), Prepared(norm, req, d), Renames(norm, req, d);
      if prepared.None? then final.None?
      else
        match VerdictOn(d, synth, IdsOf(req.pack))
        case Raised => final.None?
        case Invalid => final == Corrected(norm, req, Build(req))
        case Valid => final == if d.answer.Measurable() then Corrected(norm, req, prepared.value) else None
  {
    if Prepared(norm, req, d).Some? {
      PreparedVerdict(norm, req, d);
      PreparedIs(norm, req, d);
    }
  }

  lemma AcceptedOutcome(norm: string -> string, req: Request, d: Report)
    requires Prepared(norm, req, d).Some? && VerdictOn(d, Renames(norm, req, d), IdsOf(req.pack)) == Valid
    ensures
      var final := Corrected(norm, req, Prepared(norm, req, d).value);
      && (final.Some? <==>
            AnswerProceeds(req, d.answer) && !FiguresFor(req, d).Raises()
            && if req.kind.FinancialReport? then FinancialProceeds(norm, req, d) else SummaryProceeds(norm, req, d))
      && (final.Some? ==>
            (Grounded(final.value, IdsOf(req.pack)) <==>
               if req.kind.FinancialReport? then FiguresCite(FiguresFor(req, d), d.snapshot.variance, IdsOf(req.pack))
               else NeedsSummary(d, req.pack) && Renames(norm, req, d) == map[] ==>
                   CharactersOk(Leading(d), IdsOf(req.pack))))
  {
    if req.kind.FinancialReport? {
      AcceptedFinancial(norm, req, d);
    } else {
      AcceptedOther(norm, req, d);
    }
    var r := Prepared(norm, req, d).value;
    PreparedIs(norm, req, d);
    CorrectedIs(norm, req, r);
    if Corrected(norm, req, r).Some? {
      SameClaims(Corrected(norm, req, r).value, Settled(norm, req, r).value, IdsOf(req.pack));
    }
  }

  /**
    For every draft and request, when the node produces a report instead of raising: told from the
    draft's own snapshot, sources, sections and claims.
  */
  lemma ReportIsProducedIff(norm: string -> string, req: Request, draft: Option<Report>)
    ensures Run(norm, req, draft).Some? <==> DraftProceeds(norm, req, draft)
  {
    if !(req.kind.SalaryReport? && !req.salaryEvidence) {
      RebuiltEndsSound(norm, req);
      if draft.Some? {
        DraftOutcome(norm, req, draft.value);
        PreparedIff(norm, req, draft.value);
        if Prepared(norm, req, draft.value).Some?
            && VerdictOn(draft.value, Renames(norm, req, draft.value), IdsOf(req.pack)) == Valid {
          AcceptedOutcome(norm, req, draft.value);
        }
      }
    }
  }

  /**
    For every draft and request from which a report is produced: every claim of its six sections
    cites retrieved evidence, and nothing else, exactly when the draft allows it. A rejected or
    unreadable draft always does; an accepted financial one when every figure it keeps and its
    variance cite known ids; any other when no bare string among its first three findings puts an
    unknown character among the five ids of a summary it left to be written.
  */
  lemma FinalReportIsGroundedIff(norm: string -> string, req: Request, draft: Option<Report>)
    requires Run(norm, req, draft).Some?
    ensures Grounded(Run(norm, req, draft).value, IdsOf(req.pack)) <==> DraftCites(norm, req, draft)
  {
    if req.kind.SalaryReport? && !req.salaryEvidence {
      SalaryGroundedIff(req.pack);
    } else {
      RebuiltEndsSound(norm, req);
      if draft.Some? {
        DraftOutcome(norm, req, draft.value);
        if Prepared(norm, req, draft.value).Some?
            && VerdictOn(draft.value, Renames(norm, req, draft.value), IdsOf(req.pack)) == Valid {
          AcceptedOutcome(norm, req, draft.value);
        }
      }
    }
  }

  lemma {:induction false} FirstClaimIsKnown(items: seq<Item>, known: set<string>)
    requires ItemsGrounded(items, known)
    ensures AllIn(FirstClaimIds(items), known)
  {
    if items != [] && items[0].Claim? {
      assert ItemGrounded(items[0], known);
    } else if items != [] {
      assert forall i :: 0 <= i < |items[1..]| ==> items[1..][i] == items[i + 1];
      FirstClaimIsKnown(items[1..], known);
    }
  }

  lemma AnsweredIsComplete(req: Request, r: Report)
    requires req.managementQuestion && AnswerEnforced(req, r).Some?
    ensures
      var final, firstIds := AnswerEnforced(req, r).value, FirstClaimIds(r.Claims(KeyFindings));
      && Complete(final.answer) && final.answer.used == (if firstIds != [] then Quoting(firstIds) else Catalogued)
      && final.Claims(KeyFindings) == r.Claims(KeyFindings)
  {
    var given := if r.answer.Unwritten? then EMPTY_ANSWER else r.answer;
    EnrichedIff(given, FirstClaimIds(r.Claims(KeyFindings)));
    EnrichedIsComplete(given, FirstClaimIds(r.Claims(KeyFindings)));
  }

  /**
    Every report on a management question carries a complete answer, which names the ids of its first
    finding, if it has one that cites; in a grounded report these are retrieved evidence.
  */
  lemma FinalAnswerIsComplete(norm: string -> string, req: Request, draft: Option<Report>)
    requires req.managementQuestion && !(req.kind.SalaryReport? && !req.salaryEvidence)
    requires Run(norm, req, draft).Some?
    ensures
      var final := Run(norm, req, draft).value;
      var firstIds := FirstClaimIds(final.Claims(KeyFindings));
      && Complete(final.answer) && final.answer.used == (if firstIds != [] then Quoting(firstIds) else Catalogued)
      && (Grounded(final, IdsOf(req.pack)) ==> AllIn(firstIds, IdsOf(req.pack)))
  {
    var r := Normalised(norm, req, draft).value;
    AnsweredIsComplete(req, Settled(norm, req, r).value);
    var final := Run(norm, req, draft).value;
    if Grounded(final, IdsOf(req.pack)) {
      assert ItemsGrounded(final.Claims(KeyFindings), IdsOf(req.pack));
      FirstClaimIsKnown(final.Claims(KeyFindings), IdsOf(req.pack));
    }
  }
}
