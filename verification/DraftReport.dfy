/**
  The drafting node as the program runs it: a report object that each correction updates in place
  (apps/edr/graph/node_12_draft_json.py).
*/
module DraftReport {
  import opened Wrappers
  import opened Answers
  import opened Finance
  import opened Citations
  import opened CitationLaws
  import opened Drafting
  import opened FinanceLaws
  import opened BuiltLaws

  // ---------------------------------------------------------------------------------------------
  // Loops over ids, items and evidence
  // ---------------------------------------------------------------------------------------------

  method DistinctOf(ids: seq<string>) returns (r: seq<string>)
    ensures r == Distinct(ids)
  {
    r := [];
    for i := 0 to |ids|
      invariant r == Distinct(ids[..i])
    {
      assert ids[..i + 1][..i] == ids[..i];
      if ids[i] !in r {
        r := r + [ids[i]];
      }
    }
    assert ids[..|ids|] == ids;
  }

  method Lookups(norm: string -> string, pack: seq<Evidence>)
    returns (byTitle: map<string, string>, byUri: map<string, string>)
    ensures byTitle == ByTitle(norm, pack) && byUri == ByUri(norm, pack)
  {
    byTitle, byUri := map[], map[];
    for i := 0 to |pack|
      invariant byTitle == ByTitle(norm, pack[..i]) && byUri == ByUri(norm, pack[..i])
    {
      assert pack[..i + 1][..i] == pack[..i];
      var e := pack[i];
      if e.id == "" {
        continue;
      }
      if norm(e.title) != "" {
        byTitle := byTitle[norm(e.title) := e.id];
      }
      if norm(e.uri) != "" {
        byUri := byUri[norm(e.uri) := e.id];
      }
    }
    assert pack[..|pack|] == pack;
  }

  method SyntheticIds(norm: string -> string, sources: seq<SourceEntry>, pack: seq<Evidence>)
    returns (synth: map<string, string>)
    ensures synth == Synthetic(norm, sources, pack)
  {
    var byTitle, byUri := Lookups(norm, pack);
    synth := map[];
    for i := 0 to |sources|
      invariant synth == Synthetic(norm, sources[..i], pack)
    {
      assert sources[..i + 1][..i] == sources[..i];
      var entry := sources[i];
      var title, uri, found: Option<string> := norm(entry.title), norm(entry.reference), None;
      if title != "" && title in byTitle {
        found := Some(byTitle[title]);
      } else if uri != "" && uri in byUri {
        found := Some(byUri[uri]);
      }
      assert found == RealId(norm, entry, pack);
      if found.Some? && entry.sourceId != "" && entry.sourceId != found.value {
        synth := synth[entry.sourceId := found.value];
      }
    }
    assert sources[..|sources|] == sources;
  }

  method RemapList(synth: map<string, string>, items: seq<Item>) returns (r: seq<Item>)
    ensures r == RemapItems(synth, items)
  {
    r := [];
    for i := 0 to |items|
      invariant |r| == i && forall k :: 0 <= k < i ==> r[k] == RemapItem(synth, items[k])
    {
      var item := items[i];
      if item.Claim? && Flatten(item.ids) != [] {
        item := item.(ids := Many(FlatIds(ResolveAll(synth, Flatten(item.ids)))));
      }
      r := r + [item];
    }
  }

  method Entries(cited: seq<string>, pack: seq<Evidence>) returns (sources: seq<SourceEntry>)
    ensures sources == EntriesFor(SortIds(cited), pack)
  {
    var sorted := SortIds(cited);
    sources := [];
    for i := 0 to |sorted|
      invariant sources + EntriesFor(sorted[i..], pack) == EntriesFor(sorted, pack)
    {
      var e := EvidenceById(pack, sorted[i]);
      if e.Some? {
        sources := sources + [SourceEntry(sorted[i], e.value.title, e.value.uri)];
      }
    }
  }

  method NonBlank(items: seq<Evidence>) returns (ids: seq<string>)
    ensures ids == NonBlankIds(items)
  {
    ids := [];
    for i := 0 to |items|
      invariant ids == NonBlankIds(items[..i])
    {
      assert items[..i + 1][..i] == items[..i];
      if items[i].id != "" {
        ids := ids + [items[i].id];
      }
    }
    assert items[..|items|] == items;
  }

  method Summarise(ctx: OdooCtx, documents: seq<Evidence>) returns (summary: seq<Item>)
    ensures summary == BasicSummary(ctx, documents)
  {
    var figures := FinancialIds(ctx);
    if figures != [] {
      figures := DistinctOf(figures);
      return [Citing(Take(figures, 5))];
    }
    var read := NonBlank(Take(documents, 3));
    if read != [] {
      return [Citing(read)];
    }
    var records := NonBlank(ctx.projectRecords);
    if records == [] {
      return [];
    }
    records := DistinctOf(records);
    summary := [Citing(Take(records, 3))];
  }

  /** One finding for each figure shown; `ok` is false when one is no number, and cannot be formatted. */
  method FigureFindings(s: Snapshot) returns (ok: bool, shown: seq<Ref>, findings: seq<Item>)
    ensures ok == !exists fig :: fig in LABELLED_FIGS && Shown(s.At(fig)) && s.At(fig).value.Text?
    ensures ok ==> shown == ShownRefs(s, LABELLED_FIGS) && findings == RefClaims(shown)
  {
    shown, findings := [], [];
    for i := 0 to |LABELLED_FIGS|
      invariant forall fig :: fig in LABELLED_FIGS[..i] ==> !(Shown(s.At(fig)) && s.At(fig).value.Text?)
      invariant shown == ShownRefs(s, LABELLED_FIGS[..i])
      invariant |findings| == |shown| && forall k :: 0 <= k < |shown| ==> findings[k] == CitingRef(shown[k])
    {
      assert LABELLED_FIGS[..i + 1] == LABELLED_FIGS[..i] + [LABELLED_FIGS[i]];
      var node := s.At(LABELLED_FIGS[i]);
      if !node.available || node.value == Null || node.eid.Ids() == [] {
        continue;
      }
      if node.value.Text? {
        assert LABELLED_FIGS[i] in LABELLED_FIGS;
        return false, [], [];
      }
      shown, findings := shown + [node.eid], findings + [CitingRef(node.eid)];
    }
    assert LABELLED_FIGS[..|LABELLED_FIGS|] == LABELLED_FIGS;
    ok := true;
  }

  /** The ids of figures that cite one each; `ok` is false when one cites a list, which cannot be a dictionary key. */
  method SingleIds(shown: seq<Ref>) returns (ok: bool, ids: seq<string>)
    ensures ok == forall i :: 0 <= i < |shown| ==> !shown[i].Several?
    ensures ok ==> ids == AllIds(shown)
  {
    ids := [];
    for i := 0 to |shown|
      invariant forall k :: 0 <= k < i ==> !shown[k].Several?
      invariant ids == AllIds(shown[..i])
    {
      assert shown[..i + 1][..i] == shown[..i];
      if shown[i].Several? {
        return false, [];
      }
      ids := ids + shown[i].Ids();
    }
    assert shown[..|shown|] == shown;
    ok := true;
  }

  lemma {:induction false} ListedShown(s: Snapshot, figs: seq<Fig>)
    ensures (forall i :: 0 <= i < |ShownRefs(s, figs)| ==> !ShownRefs(s, figs)[i].Several?) <==>
              !exists fig :: fig in figs && Shown(s.At(fig)) && s.At(fig).eid.Several?
  {
    if figs != [] {
      var n := |figs| - 1;
      ListedShown(s, figs[..n]);
      assert figs == figs[..n] + [figs[n]];
      var front, shown := ShownRefs(s, figs[..n]), ShownRefs(s, figs);
      assert forall i :: 0 <= i < |front| ==> shown[i] == front[i];
      assert Shown(s.At(figs[n])) ==> shown[|front|] == s.At(figs[n]).eid;
    }
  }

  /** The finding on the variance, or in its place; `ok` is false when it cannot be written. */
  method VarianceFindings(s: Snapshot, shown: seq<Ref>) returns (ok: bool, findings: seq<Item>)
    requires shown == ShownRefs(s, LABELLED_FIGS)
    ensures ok <==>
      && !(HasVariance(s) && s.variance.value.eids != [] && s.variance.value.value.Text?)
      && !(!HasVariance(s) && exists fig :: fig in LABELLED_FIGS && Shown(s.At(fig)) && s.At(fig).eid.Several?)
    ensures ok ==> findings == VarianceFinding(s)
  {
    ok, findings := true, [];
    ListedShown(s, LABELLED_FIGS);
    if s.variance.Some? && s.variance.value.value != Null {
      if s.variance.value.eids != [] {
        ok := !s.variance.value.value.Text?;
        findings := [Citing(s.variance.value.eids)];
      }
    } else if shown != [] {
      var few: seq<string>;
      ok, few := SingleIds(shown);
      few := DistinctOf(few);
      findings := [Citing(Take(few, 2))];
    }
  }

  /** The findings of a financial report; `ok` is false when writing one raises. */
  method FindingsOf(s: Snapshot, ctx: OdooCtx) returns (ok: bool, findings: seq<Item>)
    ensures ok == !FindingsRaise(s)
    ensures ok ==> findings == SnapshotFindings(s, ctx)
  {
    var shown: seq<Ref>;
    ok, shown, findings := FigureFindings(s);
    if !ok {
      return;
    }
    var more: seq<Item>;
    ok, more := VarianceFindings(s, shown);
    if !ok {
      return;
    }
    findings := findings + more;
    if findings == [] {
      var records := NonBlank(ctx.projectRecords);
      if records != [] {
        records := DistinctOf(records);
        findings := [Citing(Take(records, 2))];
      }
    }
    findings := Take(findings, 8);
  }

  /** The findings of a rebuilt report, sorted into sections by what the document is about. */
  method SortByTopic(documents: seq<Evidence>) returns (findings: seq<Item>, delays: seq<Item>, contractual: seq<Item>)
    ensures findings == TopicClaims(documents, GeneralTopic)
    ensures delays == TopicClaims(documents, DelayTopic)
    ensures contractual == TopicClaims(documents, ContractTopic)
  {
    findings, delays, contractual := [], [], [];
    for i := 0 to |documents|
      invariant findings == TopicClaims(documents[..i], GeneralTopic)
      invariant delays == TopicClaims(documents[..i], DelayTopic)
      invariant contractual == TopicClaims(documents[..i], ContractTopic)
    {
      assert documents[..i + 1][..i] == documents[..i];
      var finding := Citing([documents[i].id]);
      match documents[i].topic
      case NoContent =>
      case DelayTopic => delays := delays + [finding];
      case ContractTopic => contractual := contractual + [finding];
      case GeneralTopic => findings := findings + [finding];
    }
    assert documents[..|documents|] == documents;
  }

  method Numbered(items: seq<Evidence>) returns (sources: seq<SourceEntry>)
    ensures sources == NumberedSources(items)
  {
    sources := [];
    for i := 0 to |items|
      invariant |sources| == i
      invariant forall k :: 0 <= k < i ==> sources[k] == SourceEntry("S" + Decimal(k + 1), items[k].title, items[k].uri)
    {
      sources := sources + [SourceEntry("S" + Decimal(i + 1), items[i].title, items[i].uri)];
    }
  }

  /** The ids of a list as it stands; `ok` is false when a nested list would raise. */
  method RawOf(elems: seq<RawId>) returns (ok: bool, refs: seq<string>)
    ensures RawElems(elems) == if ok then Some(refs) else None
  {
    ok, refs := true, [];
    for i := 0 to |elems|
      invariant RawElems(elems[..i]) == if ok then Some(refs) else None
    {
      assert elems[..i + 1][..i] == elems[..i];
      assert refs + [] == refs;
      match elems[i]
      case Id(e) => if e != "" { refs := refs + [e]; }
      case Group(es) => ok := ok && es == [];
      case NullId =>
    }
    assert elems[..|elems|] == elems;
  }

  method RefsOf(findings: seq<Item>) returns (ok: bool, refs: seq<string>)
    ensures RawRefs(findings) == if ok then Some(refs) else None
  {
    ok, refs := true, [];
    for i := 0 to |findings|
      invariant RawRefs(findings[..i]) == if ok then Some(refs) else None
    {
      assert findings[..i + 1][..i] == findings[..i];
      if findings[i].Other? {
        ok := false;
      } else if findings[i].ids.Bare? {
        refs := refs + Characters(findings[i].ids.id);
      } else {
        var more: seq<string>, flat: bool;
        flat, more := RawOf(findings[i].ids.elems);
        ok, refs := ok && flat, refs + more;
      }
    }
    assert findings[..|findings|] == findings;
  }

  lemma SectionsAreDistinct(k: nat)
    requires k < |SECTIONS|
    ensures SECTIONS[k] !in SECTIONS[..k]
  {
    assert SECTIONS[0] == ExecutiveSummary && SECTIONS[1] == KeyFindings && SECTIONS[2] == RootCauses
        && SECTIONS[3] == DelayAnalysis && SECTIONS[4] == ContractualImplications && SECTIONS[5] == RecommendedActions;
  }

  // ---------------------------------------------------------------------------------------------
  // What the loops stop at
  // ---------------------------------------------------------------------------------------------

  /** The first flaw in a list decides, whatever follows it. */
  lemma {:induction false} FirstFlawDecides(items: seq<Item>, k: nat, ids: set<string>)
    requires k <= |items| && ItemsVerdict(items[..k], map[], ids) != Valid
    ensures ItemsVerdict(items, map[], ids) == ItemsVerdict(items[..k], map[], ids)
    decreases |items|
  {
    if k < |items| {
      assert items[..|items| - 1][..k] == items[..k];
      FirstFlawDecides(items[..|items| - 1], k, ids);
    } else {
      assert items[..k] == items;
    }
  }

  lemma {:induction false} FirstFlawedSectionDecides(r: Report, sections: seq<Section>, k: nat, ids: set<string>)
    requires k <= |sections| && SectionsVerdict(r, sections[..k], map[], ids) != Valid
    ensures SectionsVerdict(r, sections, map[], ids) == SectionsVerdict(r, sections[..k], map[], ids)
    decreases |sections|
  {
    if k < |sections| {
      assert sections[..|sections| - 1][..k] == sections[..k];
      FirstFlawedSectionDecides(r, sections[..|sections| - 1], k, ids);
    } else {
      assert sections[..k] == sections;
    }
  }

  /** After the total nothing but numbers can be measured against the estimate. */
  lemma SpentIsANumber(figures: Snapshot)
    requires !TotalRaises(figures)
    ensures
      var spent := Spent(WithTotal(figures)).0;
      spent.Counted() ==> spent.value.Num?
  {
    var t := WithTotal(figures);
    PartsUnchanged(figures, t, INCURRED_FIGS);
    assert ActualCost in INCURRED_FIGS by { assert INCURRED_FIGS[0] == ActualCost; }
    assert t.At(ActualCost) == figures.At(ActualCost);
  }

  /** The snapshot of the deterministic report is its own: no pass over it raises, and its findings can be written. */
  lemma BuiltIsWritten(req: Request, rows: seq<Evidence>, ctx: OdooCtx, ids: set<string>)
    requires rows == OdooRows(Usable(req)) && ctx == ContextOf(rows) && ids == IdsOf(Usable(req))
    ensures !SecondPassRaises(InitialSnapshot(req, ctx), ctx, rows, ids)
    ensures !FindingsRaise(Categories(InitialSnapshot(req, ctx), ctx, rows, ids))
  {
    BuiltSnapshotIsTame(req);
  }

  // ---------------------------------------------------------------------------------------------
  // The report object
  // ---------------------------------------------------------------------------------------------

  class LiveReport {
    var sections: map<Section, SectionValue>
    var snapshot: Snapshot
    var sources: seq<SourceEntry>
    var answer: Answer

    ghost function View(): Report
      reads this
    {
      Report(sections, snapshot, sources, answer)
    }

    function ClaimsOf(section: Section): (items: seq<Item>)
      reads this
      ensures items == View().Claims(section)
    {
      if section in sections && sections[section].Items? then sections[section].items else []
    }

    constructor (r: Report)
      ensures View() == r
    {
      sections, snapshot, sources, answer := r.sections, r.snapshot, r.sources, r.answer;
    }

    method Become(r: Report)
      modifies this
      ensures View() == r
    {
      sections, snapshot, sources, answer := r.sections, r.snapshot, r.sources, r.answer;
    }

    /** First pass over the snapshot; `ok` is false when it looks up a list of ids. */
    method EnforceFromOdoo(ctx: OdooCtx, ids: set<string>) returns (ok: bool)
      modifies this`snapshot
      ensures ok == !FirstPassRaises(old(snapshot), ctx, ids)
      ensures ok ==> snapshot == FromOdoo(old(snapshot), ctx, ids)
    {
      if Budget in snapshot.nodes {
        snapshot := snapshot.(nodes := snapshot.nodes[Budget := NOT_AVAILABLE]);
      }
      if ActualCost !in snapshot.nodes {
        return true;
      }
      var actual := OneId(snapshot.nodes[ActualCost], ids);
      if ctx.hasAmount {
        var eid := BackingLine(ctx, ids);
        if eid in ids {
          actual := Node(Num(ctx.totalAmount), One(eid), true);
        }
      }
      if actual.available {
        if actual.eid.Several? {
          return false;
        }
        if actual.eid.NoRef? || actual.eid.id !in ids {
          actual := NOT_AVAILABLE;
        }
      }
      snapshot := snapshot.(nodes := snapshot.nodes[ActualCost := actual]);
      ok := true;
    }

    /** The best line's id, or the first sampled one that is known. */
    static method BackingLine(ctx: OdooCtx, ids: set<string>) returns (eid: string)
      ensures eid == CostId(ctx, ids)
    {
      eid := if ctx.best.Some? then ctx.best.value else "";
      if eid in ids {
        return;
      }
      var i := 0;
      while i < |ctx.sampleLines|
        invariant i <= |ctx.sampleLines|
                      && FirstSampled(ctx.sampleLines[i..], ids) == FirstSampled(ctx.sampleLines, ids)
      {
        if ctx.sampleLines[i].id in ids {
          return ctx.sampleLines[i].id;
        }
        i := i + 1;
      }
    }

    /** One figure: set when it is backed, and otherwise at least present. */
    method PutFigure(fig: Fig, m: Option<Money>)
      modifies this`snapshot
      ensures snapshot == Put(old(snapshot), fig, m)
    {
      var node := if m.Some? then Node(Num(m.value.value), One(m.value.eid), true) else snapshot.At(fig);
      snapshot := snapshot.(nodes := snapshot.nodes[fig := node]);
    }

    /** Second pass over the snapshot; `ok` is false when it meets an amount that is no number. */
    method EnforceCategories(ctx: OdooCtx, rows: seq<Evidence>, ids: set<string>) returns (ok: bool)
      modifies this`snapshot
      ensures ok == !SecondPassRaises(old(snapshot), ctx, rows, ids)
      ensures ok ==> snapshot == Categories(old(snapshot), ctx, rows, ids)
    {
      PutFigures(ctx, rows, ids);
      ghost var figures := snapshot;
      ok := EnforceTotal();
      if ok {
        SpentIsANumber(figures);
        ok := EnforceVariance();
      }
    }

    method PutFigures(ctx: OdooCtx, rows: seq<Evidence>, ids: set<string>)
      modifies this`snapshot
      ensures snapshot == WithFigures(old(snapshot), ctx, rows, ids)
    {
      PutFigure(ContractValue, Backed(NonZero(ctx.contract), ids));
      PutFigure(Estimate, Backed(NonZero(ctx.estimate), ids));
      var committed := ComputeCategory(rows, COMMITTED_CATEGORIES, COMMITTED_FIELDS, Some(ids));
      PutFigure(CommittedCost, committed);
      PutFigure(PayrollCost, Backed(ctx.payroll, ids));
      PutFigure(ExpenseCost, Backed(ctx.expense, ids));
    }

    method EnforceTotal() returns (ok: bool)
      modifies this`snapshot
      ensures ok == !TotalRaises(old(snapshot))
      ensures ok ==> snapshot == WithTotal(old(snapshot))
    {
      var parts: seq<(nat, Ref)> := [];
      var total: nat, i := 0, 0;
      while i < |INCURRED_FIGS|
        invariant i <= |INCURRED_FIGS|
        invariant parts + Parts(snapshot, INCURRED_FIGS[i..]) == Parts(snapshot, INCURRED_FIGS)
        invariant total + SumParts(Parts(snapshot, INCURRED_FIGS[i..])) == SumParts(Parts(snapshot, INCURRED_FIGS))
        invariant forall k :: 0 <= k < i ==>
                      !(snapshot.At(INCURRED_FIGS[k]).Counted() && snapshot.At(INCURRED_FIGS[k]).value.Text?)
      {
        var node := snapshot.At(INCURRED_FIGS[i]);
        if node.available && node.value != Null {
          if node.value.Text? {
            assert INCURRED_FIGS[i] in INCURRED_FIGS;
            return false;
          }
          parts, total := parts + [(Abs(node.value.n), node.eid)], total + Abs(node.value.n);
        }
        i := i + 1;
      }
      assert Parts(snapshot, []) == [];
      var node := if parts != [] then Node(Num(total), parts[0].1, true) else snapshot.At(TotalIncurred);
      snapshot := snapshot.(nodes := snapshot.nodes[TotalIncurred := node]);
      ok := true;
    }

    /** After the total, whose parts are numbers. */
    method EnforceVariance() returns (ok: bool)
      requires Spent(snapshot).0.Counted() ==> Spent(snapshot).0.value.Num?
      modifies this`snapshot
      ensures ok == !VarianceRaises(old(snapshot))
      ensures ok ==> snapshot == WithVariance(old(snapshot))
    {
      var s := snapshot;
      if s.variance.None? {
        snapshot := snapshot.(variance := Some(Variance(Null, None, [])));
      }
      var est, spent := s.At(Estimate), Spent(s);
      if est.available && spent.0.available && est.value.Truthy() && spent.0.value != Null {
        if est.value.Text? {
          return false;
        }
        snapshot := snapshot.(variance := Some(Variance(Num(est.value.n - Abs(spent.0.value.n)), Some(spent.1),
                                                        TwoRefs(est.eid, spent.0.eid))));
      }
      ok := true;
    }

    static method CitedOf(items: seq<Item>) returns (cited: seq<string>)
      ensures cited == CitedIn(items)
    {
      cited := [];
      for i := 0 to |items|
        invariant cited == CitedIn(items[..i])
      {
        assert items[..i + 1][..i] == items[..i];
        if items[i].Claim? {
          cited := cited + Flatten(items[i].ids);
        }
      }
      assert items[..|items|] == items;
    }

    method CollectCited() returns (cited: seq<string>)
      ensures cited == CitedBy(View(), SECTIONS)
    {
      cited := [];
      for k := 0 to |SECTIONS|
        invariant cited == CitedBy(View(), SECTIONS[..k])
      {
        assert SECTIONS[..k + 1][..k] == SECTIONS[..k];
        var more := CitedOf(ClaimsOf(SECTIONS[k]));
        cited := cited + more;
      }
      assert SECTIONS[..|SECTIONS|] == SECTIONS;
    }

    /** Replace invented ids and rebuild the sources; `ok` is false when that raises. */
    method RemapEvidenceIds(norm: string -> string, pack: seq<Evidence>) returns (ok: bool)
      modifies this`sections, this`sources
      ensures ok == Remap(norm, old(View()), pack).Some?
      ensures ok ==> View() == Remap(norm, old(View()), pack).value
    {
      var synth := SyntheticIds(norm, sources, pack);
      if synth == map[] {
        return true;
      }
      ok := RemapAllSections(synth);
      if ok {
        var cited := CollectCited();
        var actual := snapshot.At(ActualCost).eid;
        if actual.Several? && actual.ids != [] {
          return false;
        }
        sources := Entries(cited + ActualCostId(snapshot), pack);
      }
    }

    method RemapAllSections(synth: map<string, string>) returns (ok: bool)
      modifies this`sections
      ensures ok == !exists s :: s in old(sections) && old(sections)[s].Scalar?
      ensures ok ==> View() == RemapSections(synth, old(View()))
    {
      ghost var before := sections;
      for k := 0 to |SECTIONS|
        invariant sections.Keys == before.Keys
        invariant forall s :: s in before ==>
          sections[s] == if s in SECTIONS[..k] then RemapSection(synth, before[s]) else before[s]
        invariant forall s :: s in before && s in SECTIONS[..k] ==> !before[s].Scalar?
      {
        var s := SECTIONS[k];
        assert SECTIONS[..k + 1] == SECTIONS[..k] + [s];
        SectionsAreDistinct(k);
        if s in sections {
          if sections[s].Scalar? {
            return false;
          }
          if sections[s].Items? {
            var items := RemapList(synth, sections[s].items);
            sections := sections[s := Items(items)];
          }
        }
      }
      assert SECTIONS[..|SECTIONS|] == SECTIONS;
      forall s: Section ensures s in SECTIONS { AllSectionsListed(s); }
      ok := true;
    }

    method RebuildSources(pack: seq<Evidence>)
      modifies this`sources
      ensures sources == SourcesOfFinancial(old(View()), pack)
    {
      var cited := CollectCited();
      cited := cited + NodeId(snapshot, ContractValue) + NodeId(snapshot, Estimate)
               + NodeId(snapshot, ActualCost) + NodeId(snapshot, CommittedCost);
      if snapshot.variance.Some? {
        cited := cited + snapshot.variance.value.eids;
      }
      assert cited == FinancialCitations(View());
      sources := Entries(cited, pack);
    }

    /** Findings, summary and cleared sections; `ok` is false when a finding cannot be written. */
    method ForceSynthesis(ctx: OdooCtx) returns (ok: bool)
      modifies this`sections, this`answer
      ensures ok == !FindingsRaise(old(snapshot))
      ensures ok ==> View() == Force(old(View()), ctx)
    {
      var findings: seq<Item>;
      ok, findings := FindingsOf(snapshot, ctx);
      if !ok {
        return;
      }
      sections := sections[KeyFindings := Items(findings)];
      if ctx.projectRecords != [] || ctx.hasAmount {
        var summary := Summarise(ctx, []);
        sections := sections[ExecutiveSummary := Items(summary)];
      }
      sections := sections[RootCauses := Items([])];
      sections := sections[DelayAnalysis := Items([])];
      sections := sections[ContractualImplications := Items([])];
      answer := EMPTY_ANSWER;
    }

    /** Fill an empty executive summary; `ok` is false when that raises. */
    method EnforceExecutiveSummary(pack: seq<Evidence>) returns (ok: bool)
      modifies this`sections
      ensures ok == SummaryEnforced(old(View()), pack).Some?
      ensures ok ==> View() == SummaryEnforced(old(View()), pack).value
    {
      if ExecutiveSummary !in sections || sections[ExecutiveSummary] != Items([]) || pack == [] {
        return true;
      }
      var findings := ClaimsOf(KeyFindings);
      if findings == [] {
        return true;
      }
      var refs: seq<string>;
      ok, refs := RefsOf(Take(findings, 3));
      if ok {
        refs := DistinctOf(refs);
        refs := Take(refs, 5);
        if refs != [] {
          sections := sections[ExecutiveSummary := Items([Citing(refs)])];
        }
      }
    }

    static method ValidateList(items: seq<Item>, ids: set<string>) returns (verdict: Verdict, genuine: bool)
      ensures verdict == ItemsVerdict(items, map[], ids)
      ensures verdict == Valid ==> genuine == HasGenuine(items)
    {
      genuine := false;
      for i := 0 to |items|
        invariant ItemsVerdict(items[..i], map[], ids) == Valid
        invariant genuine == exists j :: 0 <= j < i && items[j].Claim? && items[j].wording.Genuine?
      {
        assert items[..i + 1][..i] == items[..i];
        if items[i].Other? {
          continue;
        }
        if !ValidItem(items[i], map[], ids) {
          FirstFlawDecides(items, i + 1, ids);
          return Invalid, false;
        }
        if items[i].wording.NotText? {
          FirstFlawDecides(items, i + 1, ids);
          return Raised, false;
        }
        genuine := genuine || items[i].wording.Genuine?;
      }
      assert items[..|items|] == items;
      verdict := Valid;
    }

    /** The first flaw decides, and one claim must be genuine. */
    method Validate(ids: set<string>) returns (verdict: Verdict)
      ensures verdict == VerdictOn(View(), map[], ids)
    {
      var genuine := false;
      forall s: Section ensures s in SECTIONS { AllSectionsListed(s); }
      for k := 0 to |SECTIONS|
        invariant SectionsVerdict(View(), SECTIONS[..k], map[], ids) == Valid
        invariant genuine == exists s :: s in SECTIONS[..k] && HasGenuine(View().Claims(s))
      {
        var s := SECTIONS[k];
        assert SECTIONS[..k + 1] == SECTIONS[..k] + [s];
        assert SECTIONS[..k + 1][..k] == SECTIONS[..k];
        if s !in sections || !sections[s].Items? {
          FirstFlawedSectionDecides(View(), SECTIONS, k + 1, ids);
          return Invalid;
        }
        var found: bool;
        verdict, found := ValidateList(sections[s].items, ids);
        if verdict != Valid {
          FirstFlawedSectionDecides(View(), SECTIONS, k + 1, ids);
          return;
        }
        assert sections[s].items == View().Claims(s);
        genuine := genuine || found;
      }
      assert SECTIONS[..|SECTIONS|] == SECTIONS;
      verdict := if genuine then Valid else Invalid;
    }

    /** The sections the builder writes. */
    method BuildSections(req: Request, ctx: OdooCtx, documents: seq<Evidence>)
      modifies this`sections
      ensures sections == BuiltSections(req, ctx, documents)
    {
      var summary := Summarise(ctx, documents);
      var findings, delays, contractual := SortByTopic(if req.kind.FinancialReport? then [] else documents);
      sections := map[ExecutiveSummary := Items(summary), KeyFindings := Items(findings), RootCauses := Items([]),
                      DelayAnalysis := Items(delays), ContractualImplications := Items(contractual),
                      RecommendedActions := Items([])];
    }

    /** The snapshot the builder writes: its own, after the second pass. */
    method BuildSnapshot(req: Request, rows: seq<Evidence>, ctx: OdooCtx, ids: set<string>)
      requires rows == OdooRows(Usable(req)) && ctx == ContextOf(rows) && ids == IdsOf(Usable(req))
      modifies this`snapshot
      ensures snapshot == Categories(InitialSnapshot(req, ctx), ctx, rows, ids) && !FindingsRaise(snapshot)
    {
      BuiltIsWritten(req, rows, ctx, ids);
      snapshot := InitialSnapshot(req, ctx);
      var _ := EnforceCategories(ctx, rows, ids);
    }

    /** The deterministic report, which never raises. */
    method Rebuild(req: Request)
      modifies this
      ensures View() == Build(req)
    {
      var rows, documents, ids := OdooRows(Usable(req)), Documents(Usable(req)), IdsOf(Usable(req));
      var ctx := ExtractOdooContext(rows);
      BuildSections(req, ctx, documents);
      sources := Numbered(documents + rows);
      BuildSnapshot(req, rows, ctx, ids);
      answer := UNAVAILABLE_ANSWER;
      if req.kind.FinancialReport? {
        var _ := ForceSynthesis(ctx);
      }
    }

    /** The draft, or the deterministic report; `ok` is false when that raises. */
    method Normalise(norm: string -> string, req: Request, draft: Option<Report>, ctx: OdooCtx) returns (ok: bool)
      requires ctx == PackContext(req)
      modifies this
      ensures ok == Normalised(norm, req, draft).Some?
      ensures ok ==> View() == Normalised(norm, req, draft).value
    {
      if draft.None? {
        Rebuild(req);
        return true;
      }
      Become(draft.value);
      ok := EnforceFromOdoo(ctx, IdsOf(req.pack));
      if ok {
        ok := RemapEvidenceIds(norm, req.pack);
      }
      if ok {
        var verdict := Validate(IdsOf(req.pack));
        if verdict == Invalid {
          Rebuild(req);
        }
        ok := verdict != Raised;
      }
    }

    /** Both passes over the snapshot, as every report goes through them; `ok` is false when one raises. */
    method EnforceSnapshot(ctx: OdooCtx, rows: seq<Evidence>, ids: set<string>) returns (ok: bool)
      modifies this`snapshot
      ensures ok == !EnforcementRaises(old(snapshot), ctx, rows, ids)
      ensures ok ==> snapshot == Enforced(old(snapshot), ctx, rows, ids)
    {
      ok := EnforceFromOdoo(ctx, ids);
      if ok {
        ok := EnforceCategories(ctx, rows, ids);
      }
    }

    /** Enforce the snapshot, and force a financial report to follow it; `ok` is false when that raises. */
    method Synthesise(req: Request, ctx: OdooCtx) returns (ok: bool)
      requires ctx == PackContext(req)
      modifies this`sections, this`snapshot, this`answer
      ensures ok == !SynthesisRaises(req, old(View()))
      ensures ok ==> View() == Synthesised(req, old(View()))
    {
      ok := EnforceSnapshot(ctx, OdooRows(req.pack), IdsOf(req.pack));
      if ok && req.kind.FinancialReport? {
        assert View() == SnapshotEnforced(req, old(View()));
        ok := ForceSynthesis(ctx);
      }
    }

    /** Whether all bullets are placeholders, up to the first genuine one; `ok` is false at one that is no string. */
    static method ExamineBullets(items: seq<Wording>) returns (ok: bool, empty: bool)
      ensures AllPlaceholders(items) == if ok then Some(empty) else None
    {
      for i := 0 to |items|
        invariant AllPlaceholders(items[i..]) == AllPlaceholders(items)
      {
        match items[i]
        case Genuine => return true, false;
        case NotText => return false, false;
        case Placeholder =>
      }
      ok, empty := true, true;
    }

    static method ReasonsOf(why: Bullets) returns (ok: bool, reasons: Bullets)
      ensures Reasons(why) == if ok then Some(reasons) else None
    {
      ok, reasons := true, why;
      if !why.Bullets? || |why.items| < 3 {
        return true, ThreeNotes;
      }
      var empty: bool;
      ok, empty := ExamineBullets(why.items);
      if empty {
        reasons := ThreeNotes;
      }
    }

    /** The ids of the first finding that is an object. */
    static method FirstIdsOf(items: seq<Item>) returns (ids: seq<string>)
      ensures ids == FirstClaimIds(items)
    {
      for i := 0 to |items|
        invariant FirstClaimIds(items[i..]) == FirstClaimIds(items)
      {
        if items[i].Claim? {
          return Flatten(items[i].ids);
        }
      }
      ids := [];
    }

    /** Complete the answer to a management question; `ok` is false when a text of it is no string. */
    method EnrichAnswer(req: Request) returns (ok: bool)
      modifies this`answer
      ensures ok == AnswerEnforced(req, old(View())).Some?
      ensures ok ==> View() == AnswerEnforced(req, old(View())).value
    {
      if answer.Unwritten? {
        answer := EMPTY_ANSWER;
      }
      if !req.managementQuestion {
        return true;
      }
      if !answer.Answer? {
        answer := EMPTY_ANSWER;
      }
      var firstIds := FirstIdsOf(ClaimsOf(KeyFindings));
      ok := CompleteTexts();
      if ok {
        answer := answer.(used := if firstIds != [] then Quoting(firstIds) else Catalogued);
      }
    }

    /** The texts of an answer, one after the other. */
    method CompleteTexts() returns (ok: bool)
      requires answer.Answer?
      modifies this`answer
      ensures ok == Enriched(old(answer), []).Some?
      ensures ok ==> answer.Answer? && answer == Enriched(old(answer), []).value.(used := old(answer).used)
    {
      var given := answer;
      var executive := Meant(given.executive);
      if executive.None? {
        return false;
      }
      var reasons: Bullets;
      ok, reasons := ReasonsOf(given.why);
      if !ok {
        return false;
      }
      answer := answer.(executive := executive.value, why := reasons);
      var impact, decision := Impacts(given.impact), Meant(given.decision);
      if impact.None? || decision.None? {
        return false;
      }
      answer := answer.(impact := impact.value, decision := decision.value);
      var action, risks, missing := Steps(given.action), Meant(given.risks), Stated(given.missing);
      if action.None? || risks.None? || missing.None? {
        return false;
      }
      answer := answer.(action := action.value, risks := risks.value, missing := missing.value);
      ok := true;
    }

    /** Snapshot, claims and sources corrected; `ok` is false when that raises. */
    method Settle(norm: string -> string, req: Request, ctx: OdooCtx) returns (ok: bool)
      requires ctx == PackContext(req)
      modifies this
      ensures ok == Settled(norm, req, old(View())).Some?
      ensures ok ==> View() == Settled(norm, req, old(View())).value
    {
      ok := Synthesise(req, ctx);
      if ok {
        ok := RemapEvidenceIds(norm, req.pack);
      }
      if ok {
        if req.kind.FinancialReport? {
          RebuildSources(req.pack);
        }
        assert View() == Resourced(req, Remap(norm, Synthesised(req, old(View())), req.pack).value);
        ok := EnforceExecutiveSummary(req.pack);
      }
    }

    /** The corrections every report goes through; `ok` is false when one raises. */
    method Correct(norm: string -> string, req: Request, ctx: OdooCtx) returns (ok: bool)
      requires ctx == PackContext(req)
      modifies this
      ensures ok == Corrected(norm, req, old(View())).Some?
      ensures ok ==> View() == Corrected(norm, req, old(View())).value
    {
      ok := Settle(norm, req, ctx);
      if ok {
        ok := EnrichAnswer(req);
      }
    }

    /** The node: from the draft to the final report; `ok` is false when it raises. */
    method Draft(norm: string -> string, req: Request, draft: Option<Report>) returns (ok: bool)
      modifies this
      ensures ok == Run(norm, req, draft).Some?
      ensures ok ==> View() == Run(norm, req, draft).value
    {
      if req.kind.SalaryReport? && !req.salaryEvidence {
        Become(SalaryAvailability(req.pack));
        return true;
      }
      var ctx := ExtractOdooContext(OdooRows(req.pack));
      ok := Normalise(norm, req, draft, ctx);
      if ok {
        ok := answer.Measurable();
      }
      if ok {
        ok := Correct(norm, req, ctx);
      }
    }
  }
}
