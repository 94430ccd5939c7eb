/** The sources of a financial report are exactly the evidence it cites. */
module SourceLaws {
  import opened Wrappers
  import opened Finance
  import opened Citations
  import opened CitationLaws
  import opened Drafting
  import opened DraftingLaws
  import opened QuotationLaws
  import opened BuiltLaws
  import opened GroundingLaws

  // ---------------------------------------------------------------------------------------------
  // A filled summary cites nothing new
  // ---------------------------------------------------------------------------------------------

  /** Every claim cites a list, flat or nested. */
  ghost predicate Listed(items: seq<Item>) {
    forall i :: 0 <= i < |items| && items[i].Claim? ==> items[i].ids.Many?
  }

  lemma LooseIsCited(item: Item, id: string)
    requires item.Claim? && item.ids.Many? && id in LooseOf(item)
    ensures Cites(item, id)
  {
    var cited := Flatten(item.ids);
    LooseAreFlattened(item.ids.elems, set x | x in cited);
    var i :| 0 <= i < |LooseOf(item)| && LooseOf(item)[i] == id;
  }

  lemma {:induction false} LooseAreCited(items: seq<Item>, id: string)
    requires Listed(items) && id in LooseRefs(items)
    ensures SomeItemCites(items, id)
  {
    var n := |items| - 1;
    if id in LooseRefs(items[..n]) {
      LooseAreCited(items[..n], id);
      var i :| 0 <= i < |items[..n]| && Cites(items[..n][i], id);
      assert Cites(items[i], id);
    } else {
      LooseIsCited(items[n], id);
    }
  }

  lemma QuotedIsCited(r: Report, id: string)
    requires Listed(r.Claims(KeyFindings)) && id in Take(Distinct(LooseRefs(Leading(r))), 5)
    ensures SomeItemCites(r.Claims(KeyFindings), id)
  {
    var refs := LooseRefs(Leading(r));
    DistinctMeaning(refs);
    assert id in Distinct(refs);
    LooseAreCited(Leading(r), id);
    var i :| 0 <= i < |Leading(r)| && Cites(Leading(r)[i], id);
    assert Cites(r.Claims(KeyFindings)[i], id);
  }

  lemma FilledSummaryCitesFindings(r: Report, pack: seq<Evidence>, id: string)
    requires Listed(r.Claims(KeyFindings)) && SummaryEnforced(r, pack).Some?
    ensures ReportCites(SummaryEnforced(r, pack).value, id) <==> ReportCites(r, id)
  {
    var final := SummaryEnforced(r, pack).value;
    if NeedsSummary(r, pack) {
      RawRefsAre(Leading(r));
      var few := Take(Distinct(LooseRefs(Leading(r))), 5);
      if few != [] {
        assert forall s :: s != ExecutiveSummary ==> final.Claims(s) == r.Claims(s);
        assert final.Claims(ExecutiveSummary) == [Citing(few)] && r.Claims(ExecutiveSummary) == [];
        if SomeItemCites(final.Claims(ExecutiveSummary), id) {
          CitingCites(few);
          QuotedIsCited(r, id);
        }
      }
    }
  }

  lemma SameCitations(a: Report, b: Report)
    requires a.snapshot == b.snapshot
    requires forall id :: ReportCites(a, id) <==> ReportCites(b, id)
    ensures forall id :: id in FinancialCitations(a) <==> id in FinancialCitations(b)
  {
    forall id
      ensures id in CitedBy(a, SECTIONS) <==> id in CitedBy(b, SECTIONS)
    {
      CitedMeaning(a, id);
      CitedMeaning(b, id);
    }
  }

  lemma ListsSame(sources: seq<SourceEntry>, a: seq<string>, b: seq<string>, pack: seq<Evidence>)
    requires ListsCited(sources, a, pack) && forall id :: id in a <==> id in b
    ensures ListsCited(sources, b, pack)
  {}

  lemma FilledSummaryKeepsCitations(r: Report, pack: seq<Evidence>)
    requires Listed(r.Claims(KeyFindings)) && SummaryEnforced(r, pack).Some?
    ensures
      var final := SummaryEnforced(r, pack).value;
      final.sources == r.sources && forall id :: id in FinancialCitations(final) <==> id in FinancialCitations(r)
  {
    var final := SummaryEnforced(r, pack).value;
    forall id
      ensures ReportCites(final, id) <==> ReportCites(r, id)
    {
      FilledSummaryCitesFindings(r, pack, id);
    }
    SameCitations(final, r);
  }

  lemma ResourcedListsCited(req: Request, m: Report)
    requires req.kind.FinancialReport?
    ensures
      var listed := Resourced(req, m);
      && ListsCited(listed.sources, FinancialCitations(listed), req.pack)
      && listed.Claims(KeyFindings) == m.Claims(KeyFindings)
  {
    EntriesListCited(FinancialCitations(m), req.pack);
    CitedIgnoresSources(Resourced(req, m), m, SECTIONS);
  }

  /** Listing the sources, and filling the summary afterwards, leaves the sources exactly right. */
  lemma LastStepsListCited(req: Request, m: Report)
    requires req.kind.FinancialReport? && Listed(m.Claims(KeyFindings))
    requires SummaryEnforced(Resourced(req, m), req.pack).Some?
    ensures
      var final := SummaryEnforced(Resourced(req, m), req.pack).value;
      ListsCited(final.sources, FinancialCitations(final), req.pack)
  {
    var listed := Resourced(req, m);
    var final := SummaryEnforced(listed, req.pack).value;
    ResourcedListsCited(req, m);
    FilledSummaryKeepsCitations(listed, req.pack);
    ListsSame(final.sources, FinancialCitations(listed), FinancialCitations(final), req.pack);
  }

  /** Findings written from a snapshot cite lists, before and after a remap. */
  lemma ForcedFindingsAreListed(norm: string -> string, r: Report, ctx: OdooCtx, pack: seq<Evidence>)
    requires Remap(norm, Force(r, ctx), pack).Some?
    ensures Listed(Remap(norm, Force(r, ctx), pack).value.Claims(KeyFindings))
  {
    var f := Force(r, ctx);
    ForcedSection(r, ctx, KeyFindings);
    forall i | 0 <= i < |f.Claims(KeyFindings)|
      ensures ListClaim(f.Claims(KeyFindings)[i])
    {
      FindingAt(r.snapshot, ctx, i);
    }
    var synth := Synthetic(norm, f.sources, pack);
    if synth != map[] {
      assert Remap(norm, f, pack).value.Claims(KeyFindings) == RemapItems(synth, f.Claims(KeyFindings));
    }
  }

  /**
    Every financial report the node produces, from any draft, lists as its sources exactly the
    retrieved evidence that its claims, its four main figures or its variance cite: each once, by
    ascending id, under its own title and reference.
  */
  lemma FinancialSourcesAreExact(norm: string -> string, req: Request, draft: Option<Report>)
    requires req.kind.FinancialReport? && Run(norm, req, draft).Some?
    ensures
      var final := Run(norm, req, draft).value;
      ListsCited(final.sources, FinancialCitations(final), req.pack)
  {
    CorrectedListsCited(norm, req, Normalised(norm, req, draft).value);
  }

  lemma SettledListsCited(norm: string -> string, req: Request, r: Report)
    requires req.kind.FinancialReport? && Settled(norm, req, r).Some?
    ensures
      var settled := Settled(norm, req, r).value;
      ListsCited(settled.sources, FinancialCitations(settled), req.pack)
  {
    ForcedFindingsAreListed(norm, SnapshotEnforced(req, r), PackContext(req), req.pack);
    LastStepsListCited(req, Remap(norm, Synthesised(req, r), req.pack).value);
  }

  lemma CorrectedListsCited(norm: string -> string, req: Request, r: Report)
    requires req.kind.FinancialReport? && Corrected(norm, req, r).Some?
    ensures
      var final := Corrected(norm, req, r).value;
      ListsCited(final.sources, FinancialCitations(final), req.pack)
  {
    CorrectedIs(norm, req, r);
    SettledListsCited(norm, req, r);
    CitedIgnoresSources(Corrected(norm, req, r).value, Settled(norm, req, r).value, SECTIONS);
  }
}
