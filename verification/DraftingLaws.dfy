/** What a final report may cite, for every draft the model may return. */
module DraftingLaws {
  import opened Wrappers
  import opened Finance
  import opened FinanceLaws
  import opened Citations
  import opened CitationLaws
  import opened Drafting

  // ---------------------------------------------------------------------------------------------
  // Ids picked from the pack are ids of the pack
  // ---------------------------------------------------------------------------------------------

  ghost predicate From(items: seq<Evidence>, pack: seq<Evidence>) {
    forall e :: e in items ==> e in pack
  }

  lemma {:induction false} FilterMeaning(pack: seq<Evidence>, keep: Evidence -> bool)
    ensures forall e :: e in Filter(pack, keep) <==> e in pack && keep(e)
  {
    if pack != [] {
      FilterMeaning(pack[..|pack| - 1], keep);
      assert pack == pack[..|pack| - 1] + [pack[|pack| - 1]];
    }
  }

  lemma PackParts(pack: seq<Evidence>)
    ensures From(OdooRows(pack), pack) && From(Documents(pack), pack)
  {
    FilterMeaning(pack, (e: Evidence) => e.sourceType.Odoo?);
    FilterMeaning(pack, (e: Evidence) => e.sourceType.SharePoint? || e.sourceType.OwnCloud?);
    FilterMeaning(pack, (e: Evidence) => e.sourceType.Email?);
  }

  lemma UsableIsFromPack(req: Request)
    ensures From(Usable(req), req.pack)
  {
    FilterMeaning(req.pack, (e: Evidence) => e.sourceType.Odoo? || e.financial);
  }

  lemma {:induction false} NonBlankAreIds(items: seq<Evidence>)
    ensures AllIn(NonBlankIds(items), IdsOf(items))
  {
    if items != [] {
      NonBlankAreIds(items[..|items| - 1]);
      assert items == items[..|items| - 1] + [items[|items| - 1]];
    }
  }

  lemma {:induction false} DistinctMeaning(ids: seq<string>)
    ensures forall x :: x in Distinct(ids) <==> x in ids
  {
    if ids != [] {
      DistinctMeaning(ids[..|ids| - 1]);
      assert ids == ids[..|ids| - 1] + [ids[|ids| - 1]];
    }
  }

  lemma FewAreKnown(ids: seq<string>, n: nat, known: set<string>)
    requires AllIn(ids, known) && n > 0
    ensures AllIn(Take(Distinct(ids), n), known)
    ensures ids != [] ==> Take(Distinct(ids), n) != []
  {
    DistinctMeaning(ids);
    if ids != [] {
      assert ids[0] in Distinct(ids);
    }
    forall i | 0 <= i < |Take(Distinct(ids), n)|
      ensures Take(Distinct(ids), n)[i] in known
    {
      assert Distinct(ids)[i] in ids;
    }
  }

  lemma {:induction false} FirstWithIsARecord(records: seq<Evidence>, field: Field)
    ensures FirstWith(records, field).Some? ==> FirstWith(records, field).value.eid in IdsOf(records)
  {
    if records != [] {
      FirstWithIsARecord(records[1..], field);
      assert forall e :: e in records[1..] ==> e in records;
      assert records[0] in records;
    }
  }

  lemma BestIsARow(rows: seq<Evidence>)
    ensures ContextOf(rows).best.Some? ==> ContextOf(rows).best.value in IdsOf(rows)
  {
    CostLinesAreRows(rows);
    CostTallyMeaning(CostLines(rows));
    FirstValuedIsALine(CostLines(rows));
    assert IdsOf(CostLines(rows)) <= IdsOf(rows);
  }

  ghost predicate MoneyKnown(m: Option<Money>, known: set<string>) {
    m.Some? ==> m.value.eid in known
  }

  /** Every id an extraction carries is the id of one of its rows. */
  ghost predicate ContextKnown(ctx: OdooCtx, known: set<string>) {
    && MoneyKnown(ctx.contract, known) && MoneyKnown(ctx.estimate, known)
    && MoneyKnown(ctx.payroll, known) && MoneyKnown(ctx.expense, known)
    && (ctx.best.Some? ==> ctx.best.value in known)
    && AllIn(NonBlankIds(ctx.projectRecords), known)
  }

  lemma ContextIsKnown(rows: seq<Evidence>, known: set<string>)
    requires IdsOf(rows) <= known
    ensures ContextKnown(ContextOf(rows), known)
  {
    var records := ProjectRecords(rows);
    CostLinesAreRows(rows);
    FirstWithIsARecord(records, FWoAmount);
    FirstWithIsARecord(records, FEstimationAmount);
    assert IdsOf(records) <= IdsOf(rows);
    BestIsARow(rows);
    TallyIdIsKnown(rows, PAYROLL_CATEGORIES, PAYROLL_FIELDS, None);
    TallyIdIsKnown(rows, EXPENSE_CATEGORIES, EXPENSE_FIELDS, None);
    NonBlankAreIds(records);
  }

  lemma FinancialIdsAreKnown(ctx: OdooCtx, known: set<string>)
    requires ContextKnown(ctx, known)
    ensures AllIn(FinancialIds(ctx), known)
  {
    assert AllIn(MoneyId(NonZero(ctx.contract)), known) && AllIn(MoneyId(NonZero(ctx.estimate)), known);
    assert AllIn(MoneyId(ctx.payroll), known) && AllIn(MoneyId(ctx.expense), known);
    assert AllIn(MaybeId(ctx.best), known) && AllIn(MaybeId(ctx.TotalIncurredId()), known);
  }

  /** A single claim over known ids is grounded. */
  lemma CitingIsGrounded(ids: seq<string>, known: set<string>)
    requires ids != [] && AllIn(ids, known)
    ensures ItemsGrounded([Citing(ids)], known)
  {
    CitingCites(ids);
  }

  lemma BasicSummaryIsGrounded(ctx: OdooCtx, documents: seq<Evidence>, known: set<string>)
    requires ContextKnown(ctx, known) && IdsOf(documents) <= known
    ensures ItemsGrounded(BasicSummary(ctx, documents), known)
  {
    var figures, read, records := FinancialIds(ctx), NonBlankIds(Take(documents, 3)), NonBlankIds(ctx.projectRecords);
    FinancialIdsAreKnown(ctx, known);
    NonBlankAreIds(Take(documents, 3));
    assert IdsOf(Take(documents, 3)) <= IdsOf(documents);
    FewAreKnown(figures, 5, known);
    FewAreKnown(records, 3, known);
    if figures != [] {
      CitingIsGrounded(Take(Distinct(figures), 5), known);
    } else if read != [] {
      CitingIsGrounded(read, known);
    } else if records != [] {
      CitingIsGrounded(Take(Distinct(records), 3), known);
    }
  }

  // ---------------------------------------------------------------------------------------------
  // Findings of a financial report are grounded exactly when the snapshot cites known ids
  // ---------------------------------------------------------------------------------------------

  /** A figure that is reported cites known ids only. */
  ghost predicate Known(n: Node, known: set<string>) {
    Shown(n) ==> AllIn(n.eid.Ids(), known)
  }

  ghost predicate VarianceKnown(v: Option<Variance>, known: set<string>) {
    v.Some? && v.value.value != Null ==> AllIn(v.value.eids, known)
  }

  /** Every figure that is reported, and the variance, cites known ids only. */
  ghost predicate CitesKnown(s: Snapshot, known: set<string>) {
    (forall f :: f in LABELLED_FIGS ==> Known(s.At(f), known)) && VarianceKnown(s.variance, known)
  }

  ghost predicate RefsKnown(refs: seq<Ref>, known: set<string>) {
    forall i :: 0 <= i < |refs| ==> AllIn(refs[i].Ids(), known)
  }

  lemma AllInConcat(a: seq<string>, b: seq<string>, known: set<string>)
    ensures AllIn(a + b, known) <==> AllIn(a, known) && AllIn(b, known)
  {
    if AllIn(a + b, known) {
      assert forall i :: 0 <= i < |a| ==> (a + b)[i] == a[i];
      assert forall i :: 0 <= i < |b| ==> (a + b)[|a| + i] == b[i];
    }
  }

  lemma RefsKnownConcat(a: seq<Ref>, b: seq<Ref>, known: set<string>)
    ensures RefsKnown(a + b, known) <==> RefsKnown(a, known) && RefsKnown(b, known)
  {
    if RefsKnown(a + b, known) {
      assert forall i :: 0 <= i < |a| ==> (a + b)[i] == a[i];
      assert forall i :: 0 <= i < |b| ==> (a + b)[|a| + i] == b[i];
    }
  }

  /** The references reported: each cites something, and all cite known ids exactly when every figure does. */
  lemma {:induction false} ShownRefsKnownIff(s: Snapshot, figs: seq<Fig>, known: set<string>)
    ensures RefsKnown(ShownRefs(s, figs), known) <==> forall f :: f in figs ==> Known(s.At(f), known)
    ensures forall i :: 0 <= i < |ShownRefs(s, figs)| ==> ShownRefs(s, figs)[i].Ids() != []
    ensures |ShownRefs(s, figs)| <= |figs|
  {
    if figs != [] {
      var n := |figs| - 1;
      ShownRefsKnownIff(s, figs[..n], known);
      var last := if Shown(s.At(figs[n])) then [s.At(figs[n]).eid] else [];
      RefsKnownConcat(ShownRefs(s, figs[..n]), last, known);
      assert RefsKnown(last, known) <==> Known(s.At(figs[n]), known) by {
        if Shown(s.At(figs[n])) { assert last[0] == s.At(figs[n]).eid; }
      }
      assert figs == figs[..n] + [figs[n]];
    }
  }

  lemma {:induction false} AllIdsKnown(refs: seq<Ref>, known: set<string>)
    requires RefsKnown(refs, known) && forall i :: 0 <= i < |refs| ==> refs[i].Ids() != []
    ensures AllIn(AllIds(refs), known) && (refs != [] ==> AllIds(refs) != [])
  {
    if refs != [] {
      AllIdsKnown(refs[..|refs| - 1], known);
    }
  }

  lemma GroundedConcat(a: seq<Item>, b: seq<Item>, known: set<string>)
    ensures ItemsGrounded(a + b, known) <==> ItemsGrounded(a, known) && ItemsGrounded(b, known)
  {
    if ItemsGrounded(a + b, known) {
      assert forall i :: 0 <= i < |a| ==> (a + b)[i] == a[i];
      assert forall i :: 0 <= i < |b| ==> (a + b)[|a| + i] == b[i];
    }
  }

  lemma SingleClaimsGroundedIff(ids: seq<string>, known: set<string>)
    ensures ItemsGrounded(SingleClaims(ids), known) <==> AllIn(ids, known)
  {
    forall i | 0 <= i < |ids|
      ensures ItemGrounded(SingleClaims(ids)[i], known) <==> ids[i] in known
    {
      CitingCites([ids[i]]);
    }
  }

  lemma RefCites(ref: Ref)
    requires ref.Ids() != []
    ensures CitingRef(ref).Claim? && Flatten(CitingRef(ref).ids) == ref.Ids()
  {
    match ref
    case One(id) => CitingCites([id]);
    case Several(ids) =>
      var elems := [Group(ids)];
      assert elems[1..] == [] && FlattenElems(elems) == ids + FlattenElems([]);
  }

  lemma RefClaimsGroundedIff(refs: seq<Ref>, known: set<string>)
    requires forall i :: 0 <= i < |refs| ==> refs[i].Ids() != []
    ensures ItemsGrounded(RefClaims(refs), known) <==> RefsKnown(refs, known)
  {
    forall i | 0 <= i < |refs|
      ensures ItemGrounded(RefClaims(refs)[i], known) <==> AllIn(refs[i].Ids(), known)
    {
      RefCites(refs[i]);
    }
  }

  lemma VarianceFindingGroundedIff(s: Snapshot, known: set<string>)
    requires RefsKnown(ShownRefs(s, LABELLED_FIGS), known)
    ensures ItemsGrounded(VarianceFinding(s), known) <==> VarianceKnown(s.variance, known)
  {
    var shown := ShownRefs(s, LABELLED_FIGS);
    ShownRefsKnownIff(s, LABELLED_FIGS, known);
    if HasVariance(s) {
      var eids := s.variance.value.eids;
      CitingCites(eids);
      if eids != [] {
        assert VarianceFinding(s)[0] == Citing(eids);
      }
    } else if shown != [] {
      AllIdsKnown(shown, known);
      FewAreKnown(AllIds(shown), 2, known);
      CitingIsGrounded(Take(Distinct(AllIds(shown)), 2), known);
    }
  }

  /** The findings of a financial report are grounded exactly when its snapshot cites known ids only. */
  lemma FindingsGroundedIff(s: Snapshot, ctx: OdooCtx, known: set<string>)
    requires ContextKnown(ctx, known)
    ensures ItemsGrounded(SnapshotFindings(s, ctx), known) <==> CitesKnown(s, known)
  {
    var shown, records := ShownRefs(s, LABELLED_FIGS), NonBlankIds(ctx.projectRecords);
    var findings := RefClaims(shown) + VarianceFinding(s);
    ShownRefsKnownIff(s, LABELLED_FIGS, known);
    GroundedConcat(RefClaims(shown), VarianceFinding(s), known);
    RefClaimsGroundedIff(shown, known);
    if RefsKnown(shown, known) {
      VarianceFindingGroundedIff(s, known);
    }
    if findings == [] && records != [] {
      FewAreKnown(records, 2, known);
      CitingIsGrounded(Take(Distinct(records), 2), known);
    }
  }

  // ---------------------------------------------------------------------------------------------
  // The enforced snapshot, told from the draft's figures
  // ---------------------------------------------------------------------------------------------

  /** Every figure cites known ids, and so does the variance when the draft's own is kept. */
  ghost predicate FiguresCite(f: Figures, before: Option<Variance>, known: set<string>) {
    && (forall i :: 0 <= i < |f.Nodes()| ==> Known(f.Nodes()[i], known))
    && (f.Measurable() || VarianceKnown(before, known))
  }

  /**
    A reported figure is no number; or a kept variance with ids is none; or no variance is left and
    a figure lists its ids.
  */
  ghost predicate FiguresUnwritable(f: Figures, before: Option<Variance>) {
    || (exists i :: 0 <= i < |f.Nodes()| && Shown(f.Nodes()[i]) && f.Nodes()[i].value.Text?)
    || (!f.Measurable() && before.Some? && before.value.value.Text? && before.value.eids != [])
    || (!f.Measurable() && (before.None? || before.value.value == Null)
        && exists i :: 0 <= i < |f.Nodes()| && Shown(f.Nodes()[i]) && f.Nodes()[i].eid.Several?)
  }

  /** The snapshot shows the figures, one for each label. */
  lemma LabelledNodes(e: Snapshot, f: Figures, before: Option<Variance>)
    requires WorkedOut(e, f, before)
    ensures |LABELLED_FIGS| == |f.Nodes()|
    ensures forall i :: 0 <= i < |LABELLED_FIGS| ==> e.At(LABELLED_FIGS[i]) == f.Nodes()[i]
  {
    assert LABELLED_FIGS[0] == ContractValue && LABELLED_FIGS[1] == Estimate && LABELLED_FIGS[2] == ActualCost
        && LABELLED_FIGS[3] == PayrollCost && LABELLED_FIGS[4] == ExpenseCost && LABELLED_FIGS[5] == CommittedCost
        && LABELLED_FIGS[6] == TotalIncurred;
  }

  /** A variance that is worked out cites the reported estimate and the reported spend. */
  lemma MeasuredVarianceIsKnown(f: Figures, known: set<string>)
    requires f.Measurable() && forall i :: 0 <= i < |f.Nodes()| ==> Known(f.Nodes()[i], known)
    ensures AllIn(TwoRefs(f.estimate.eid, f.SpentNode().eid), known)
  {
    assert f.Nodes()[1] == f.estimate && f.Nodes()[2] == f.actual && f.Nodes()[6] == f.Incurred();
    assert Known(f.estimate, known) && Known(f.SpentNode(), known);
    AllInConcat(f.estimate.eid.Ids(), f.SpentNode().eid.Ids(), known);
  }

  lemma WorkedOutCitesIff(e: Snapshot, f: Figures, before: Option<Variance>, known: set<string>)
    requires WorkedOut(e, f, before)
    ensures CitesKnown(e, known) <==> FiguresCite(f, before, known)
  {
    LabelledNodes(e, f, before);
    if forall i :: 0 <= i < |f.Nodes()| ==> Known(f.Nodes()[i], known) {
      if f.Measurable() {
        MeasuredVarianceIsKnown(f, known);
      }
    }
  }

  lemma WorkedOutUnwritableIff(e: Snapshot, f: Figures, before: Option<Variance>)
    requires WorkedOut(e, f, before)
    ensures FindingsRaise(e) <==> FiguresUnwritable(f, before)
  {
    LabelledNodes(e, f, before);
  }

  /** Entering both passes with figures that are known and numbers. */
  lemma EnforcedCitesIff(s: Snapshot, ctx: OdooCtx, rows: seq<Evidence>, ids: set<string>)
    ensures
      var e, f := Enforced(s, ctx, rows, ids), DraftFigures(s, ctx, rows, ids);
      && (CitesKnown(e, ids) <==> FiguresCite(f, s.variance, ids))
      && (FindingsRaise(e) <==> FiguresUnwritable(f, s.variance))
  {
    EnforcedIs(s, ctx, rows, ids);
    WorkedOutCitesIff(Enforced(s, ctx, rows, ids), DraftFigures(s, ctx, rows, ids), s.variance, ids);
    WorkedOutUnwritableIff(Enforced(s, ctx, rows, ids), DraftFigures(s, ctx, rows, ids), s.variance);
  }
}
