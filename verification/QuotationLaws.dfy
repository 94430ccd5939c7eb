/** The summary of last resort: when it can be written, and when what it quotes is known. */
module QuotationLaws {
  import opened Wrappers
  import opened Finance
  import opened Citations
  import opened CitationLaws
  import opened Drafting
  import opened DraftingLaws

  // ---------------------------------------------------------------------------------------------
  // Flat claims
  // ---------------------------------------------------------------------------------------------

  /** A claim whose ids are a flat list of strings. */
  ghost predicate FlatItem(item: Item) {
    item.Claim? && item.ids.Many? && forall i :: 0 <= i < |item.ids.elems| ==> item.ids.elems[i].Id?
  }

  ghost predicate FlatItems(items: seq<Item>) {
    forall i :: 0 <= i < |items| ==> FlatItem(items[i])
  }

  ghost predicate FlatReport(r: Report) {
    AllLists(r) && forall s :: FlatItems(r.Claims(s))
  }

  lemma {:induction false} FlattenOfFlat(elems: seq<RawId>)
    requires forall i :: 0 <= i < |elems| ==> elems[i].Id?
    ensures |FlattenElems(elems)| == |elems| && forall i :: 0 <= i < |elems| ==> FlattenElems(elems)[i] == elems[i].id
  {
    if elems != [] { FlattenOfFlat(elems[1..]); }
  }

  // ---------------------------------------------------------------------------------------------
  // Collecting raw ids
  // ---------------------------------------------------------------------------------------------

  /** No element is a list, but for an empty one. */
  predicate NoList(elems: seq<RawId>) {
    forall i :: 0 <= i < |elems| && elems[i].Group? ==> elems[i].ids == []
  }

  /** A claim whose raw ids can be collected: a string, or a list without lists. */
  predicate Collectable(item: Item) {
    item.Claim? && (item.ids.Many? ==> NoList(item.ids.elems))
  }

  predicate AllCollectable(items: seq<Item>) {
    forall i :: 0 <= i < |items| ==> Collectable(items[i])
  }

  function LooseElems(elems: seq<RawId>): seq<string> {
    if elems == [] then []
    else LooseElems(elems[..|elems| - 1])
         + (if elems[|elems| - 1].Id? then MaybeId(Some(elems[|elems| - 1].id)) else [])
  }

  /** What iterating the raw ids of an item yields: a string's characters, or a list's non-blank strings. */
  function LooseOf(item: Item): seq<string> {
    match item
    case Other => []
    case Claim(_, raw) =>
      match raw
      case Bare(e) => Characters(e)
      case Many(elems) => LooseElems(elems)
  }

  function LooseRefs(items: seq<Item>): seq<string> {
    if items == [] then [] else LooseRefs(items[..|items| - 1]) + LooseOf(items[|items| - 1])
  }

  lemma {:induction false} RawElemsAre(elems: seq<RawId>)
    ensures RawElems(elems).Some? <==> NoList(elems)
    ensures RawElems(elems).Some? ==> RawElems(elems).value == LooseElems(elems)
  {
    if elems != [] {
      var n := |elems| - 1;
      RawElemsAre(elems[..n]);
      NoListSnoc(elems);
      assert LooseElems(elems[..n]) + [] == LooseElems(elems[..n]);
    }
  }

  lemma NoListSnoc(elems: seq<RawId>)
    requires elems != []
    ensures
      var last := elems[|elems| - 1];
      NoList(elems) <==> NoList(elems[..|elems| - 1]) && (last.Group? ==> last.ids == [])
  {
    var n := |elems| - 1;
    if NoList(elems) {
      assert forall i :: 0 <= i < n ==> elems[..n][i] == elems[i];
    }
  }

  /** Collecting succeeds exactly when every item allows it, and then yields what they hold. */
  lemma {:induction false} RawRefsAre(items: seq<Item>)
    ensures RawRefs(items).Some? <==> AllCollectable(items)
    ensures RawRefs(items).Some? ==> RawRefs(items).value == LooseRefs(items)
  {
    if items != [] {
      var n := |items| - 1;
      RawRefsAre(items[..n]);
      assert AllCollectable(items) <==> AllCollectable(items[..n]) && Collectable(items[n]) by {
        if AllCollectable(items) { assert forall i :: 0 <= i < n ==> items[..n][i] == items[i]; }
      }
      if items[n].Claim? && items[n].ids.Many? {
        RawElemsAre(items[n].ids.elems);
      }
    }
  }

  /** The strings of a list are among what it cites once flattened. */
  lemma {:induction false} LooseAreFlattened(elems: seq<RawId>, known: set<string>)
    requires AllIn(FlattenElems(elems), known)
    ensures AllIn(LooseElems(elems), known)
  {
    if elems != [] {
      var n := |elems| - 1;
      FlattenSnoc(elems);
      AllInConcat(FlattenElems(elems[..n]), FlattenElems([elems[n]]), known);
      LooseAreFlattened(elems[..n], known);
      if elems[n].Id? {
        FlattenOfFlat([elems[n]]);
        assert FlattenElems([elems[n]])[0] == elems[n].id;
      }
    }
  }

  lemma FlattenHead(elems: seq<RawId>)
    requires elems != []
    ensures FlattenElems(elems) == FlattenElems([elems[0]]) + FlattenElems(elems[1..])
  {
    assert [elems[0]][1..] == [] && FlattenElems([]) == [];
  }

  lemma {:induction false} FlattenSnoc(elems: seq<RawId>)
    requires elems != []
    ensures FlattenElems(elems) == FlattenElems(elems[..|elems| - 1]) + FlattenElems([elems[|elems| - 1]])
  {
    var n := |elems| - 1;
    if n == 0 {
      assert elems == [elems[0]] && elems[..0] == [];
    } else {
      FlattenSnoc(elems[1..]);
      assert elems[1..][..n - 1] == elems[..n][1..] && elems[1..][n - 1] == elems[n];
      FlattenHead(elems);
      FlattenHead(elems[..n]);
    }
  }

  // ---------------------------------------------------------------------------------------------
  // The five ids quoted
  // ---------------------------------------------------------------------------------------------

  /** The k-th reference is known, or five others stand before it. */
  ghost predicate QuotedOk(refs: seq<string>, k: nat, known: set<string>)
    requires k < |refs|
  {
    refs[k] in known || |Distinct(refs[..k])| >= 5
  }

  lemma {:induction false} DistinctGrows(ids: seq<string>, n: nat)
    requires n <= |ids|
    ensures Distinct(ids[..n]) <= Distinct(ids)
    decreases |ids|
  {
    if n == |ids| {
      assert ids[..n] == ids;
    } else {
      DistinctGrows(ids[..|ids| - 1], n);
      assert ids[..|ids| - 1][..n] == ids[..n];
    }
  }

  ghost predicate AllQuotedOk(refs: seq<string>, known: set<string>) {
    forall k :: 0 <= k < |refs| ==> QuotedOk(refs, k, known)
  }

  /** The first five distinct references are known exactly when every unknown one has five others before it. */
  lemma {:induction false} FirstFiveKnownIff(refs: seq<string>, known: set<string>)
    ensures AllIn(Take(Distinct(refs), 5), known) <==> AllQuotedOk(refs, known)
  {
    if refs != [] {
      var n := |refs| - 1;
      FirstFiveKnownIff(refs[..n], known);
      PositionsOfParts(refs[..n], [refs[n]], known);
      assert PartOk(refs[..n], [refs[n]], known) <==> refs[n] in known || |Distinct(refs[..n])| >= 5 by {
        assert refs[..n] + [refs[n]][..0] == refs[..n] && [refs[n]][0] == refs[n];
      }
      LastOfFive(refs[..n], refs[n], known);
      assert refs == refs[..n] + [refs[n]];
    }
  }

  lemma LastOfFive(front: seq<string>, last: string, known: set<string>)
    ensures AllIn(Take(Distinct(front + [last]), 5), known) <==>
              AllIn(Take(Distinct(front), 5), known) && (last in known || |Distinct(front)| >= 5)
  {
    assert (front + [last])[..|front|] == front;
    var before, after := Distinct(front), Distinct(front + [last]);
    if last in before {
      if last !in known && |before| < 5 {
        var i :| 0 <= i < |before| && before[i] == last;
        assert Take(before, 5)[i] == last;
      }
    } else if |before| < 5 {
      assert Take(after, 5) == Take(before, 5) + [last];
      AllInConcat(Take(before, 5), [last], known);
      assert AllIn([last], known) <==> last in known by { assert [last][0] == last; }
    } else {
      assert Take(after, 5) == Take(before, 5);
    }
  }

  /** Every position of the part that follows `before`. */
  ghost predicate PartOk(before: seq<string>, part: seq<string>, known: set<string>) {
    forall j :: 0 <= j < |part| ==> part[j] in known || |Distinct(before + part[..j])| >= 5
  }

  lemma PositionsOfParts(before: seq<string>, part: seq<string>, known: set<string>)
    ensures AllQuotedOk(before + part, known) <==> AllQuotedOk(before, known) && PartOk(before, part, known)
  {
    var all := before + part;
    forall k | 0 <= k < |before|
      ensures QuotedOk(all, k, known) <==> QuotedOk(before, k, known)
    {
      assert all[..k] == before[..k];
    }
    forall j | 0 <= j < |part|
      ensures QuotedOk(all, |before| + j, known) <==> part[j] in known || |Distinct(before + part[..j])| >= 5
    {
      assert all[..|before| + j] == before + part[..j];
    }
    if AllQuotedOk(all, known) {
      forall j | 0 <= j < |part|
        ensures part[j] in known || |Distinct(before + part[..j])| >= 5
      {
        assert QuotedOk(all, |before| + j, known);
      }
    }
    if AllQuotedOk(before, known) && PartOk(before, part, known) {
      forall k | 0 <= k < |all|
        ensures QuotedOk(all, k, known)
      {
        if k >= |before| {
          var j := k - |before|;
          assert k == |before| + j && (part[j] in known || |Distinct(before + part[..j])| >= 5);
        }
      }
    }
  }

  /** A bare string among the findings: each character is known, or five distinct ids are quoted before it. */
  ghost predicate BareOk(findings: seq<Item>, i: nat, known: set<string>)
    requires i < |findings|
  {
    findings[i].Claim? && findings[i].ids.Bare? ==>
        PartOk(LooseRefs(findings[..i]), Characters(findings[i].ids.id), known)
  }

  /** No bare string among the items brings an unknown character to the five quoted ids. */
  ghost predicate CharactersOk(items: seq<Item>, known: set<string>) {
    forall i :: 0 <= i < |items| ==> BareOk(items, i, known)
  }

  /** Of grounded items only bare strings can bring something unknown to the quoted ids. */
  lemma {:induction false} QuotedKnownIff(items: seq<Item>, known: set<string>)
    requires ItemsGrounded(items, known)
    ensures AllIn(Take(Distinct(LooseRefs(items)), 5), known) <==> CharactersOk(items, known)
  {
    FirstFiveKnownIff(LooseRefs(items), known);
    PositionsOfItems(items, known);
  }

  lemma {:induction false} PositionsOfItems(items: seq<Item>, known: set<string>)
    requires ItemsGrounded(items, known)
    ensures AllQuotedOk(LooseRefs(items), known) <==> CharactersOk(items, known)
  {
    if items != [] {
      var n := |items| - 1;
      PositionsOfItems(items[..n], known);
      PositionsOfParts(LooseRefs(items[..n]), LooseOf(items[n]), known);
      CharactersOkSnoc(items, known);
      LastPartIff(items, known);
    }
  }

  lemma LastPartIff(items: seq<Item>, known: set<string>)
    requires items != [] && ItemsGrounded(items, known)
    ensures
      var n := |items| - 1;
      PartOk(LooseRefs(items[..n]), LooseOf(items[n]), known) <==> BareOk(items, n, known)
  {
    var last := items[|items| - 1];
    if last.Claim? && last.ids.Many? {
      assert ItemGrounded(last, known);
      LooseAreFlattened(last.ids.elems, known);
    }
  }

  lemma CharactersOkSnoc(items: seq<Item>, known: set<string>)
    requires items != []
    ensures CharactersOk(items, known) <==>
              CharactersOk(items[..|items| - 1], known) && BareOk(items, |items| - 1, known)
  {
    var n := |items| - 1;
    forall i | 0 <= i < n
      ensures BareOk(items[..n], i, known) <==> BareOk(items, i, known)
    {
      assert items[..n][..i] == items[..i] && items[..n][i] == items[i];
    }
    if CharactersOk(items[..n], known) && BareOk(items, n, known) {
      forall i | 0 <= i < |items|
        ensures BareOk(items, i, known)
      {
        assert i == n || BareOk(items[..n], i, known);
      }
    }
  }

  // ---------------------------------------------------------------------------------------------
  // The summary
  // ---------------------------------------------------------------------------------------------

  /** The findings the summary looks at. */
  function Leading(r: Report): seq<Item> {
    Take(r.Claims(KeyFindings), 3)
  }

  /** The summary can be written exactly when it is not needed or the leading findings can be collected. */
  lemma SummaryWrittenIff(r: Report, pack: seq<Evidence>)
    ensures SummaryEnforced(r, pack).Some? <==> (NeedsSummary(r, pack) ==> AllCollectable(Leading(r)))
  {
    RawRefsAre(Leading(r));
  }

  lemma LeadingGrounded(r: Report, known: set<string>)
    requires Grounded(r, known)
    ensures ItemsGrounded(Leading(r), known)
  {
    assert ItemsGrounded(r.Claims(KeyFindings), known);
  }

  /**
    A summary that can be written leaves the report grounded exactly when it was, and no bare string
    among its first three findings brings an unknown character to the five ids the summary quotes.
  */
  lemma SummaryGroundedIff(r: Report, pack: seq<Evidence>, known: set<string>)
    requires SummaryEnforced(r, pack).Some?
    ensures Grounded(SummaryEnforced(r, pack).value, known) <==>
              Grounded(r, known) && (NeedsSummary(r, pack) ==> CharactersOk(Leading(r), known))
  {
    if Grounded(r, known) {
      LeadingGrounded(r, known);
      QuotedKnownIff(Leading(r), known);
      FilledGroundedIff(r, pack, known);
    } else if Grounded(SummaryEnforced(r, pack).value, known) {
      SummaryKeepsTheRest(r, pack, known);
      assert false;
    }
  }

  /** A grounded report led by one claim over `few`. */
  lemma LedByGroundedIff(r: Report, final: Report, few: seq<string>, known: set<string>)
    requires Grounded(r, known) && few != []
    requires final.Claims(ExecutiveSummary) == [Citing(few)]
    requires forall s :: s != ExecutiveSummary ==> final.Claims(s) == r.Claims(s)
    ensures Grounded(final, known) <==> AllIn(few, known)
  {
    CitingCites(few);
    assert final.Claims(ExecutiveSummary)[0] == Citing(few);
    if AllIn(few, known) {
      CitingIsGrounded(few, known);
      forall s
        ensures ItemsGrounded(final.Claims(s), known)
      {
        assert ItemsGrounded(r.Claims(s), known);
      }
    }
  }

  lemma FilledGroundedIff(r: Report, pack: seq<Evidence>, known: set<string>)
    requires SummaryEnforced(r, pack).Some? && Grounded(r, known)
    ensures Grounded(SummaryEnforced(r, pack).value, known) <==>
              (NeedsSummary(r, pack) ==> AllIn(Take(Distinct(LooseRefs(Leading(r))), 5), known))
  {
    if NeedsSummary(r, pack) {
      RawRefsAre(Leading(r));
      var few := Take(Distinct(LooseRefs(Leading(r))), 5);
      if few != [] {
        LedByGroundedIff(r, SummaryEnforced(r, pack).value, few, known);
      }
    }
  }

  /** An ungrounded report stays ungrounded: only an empty summary is replaced. */
  lemma SummaryKeepsTheRest(r: Report, pack: seq<Evidence>, known: set<string>)
    requires SummaryEnforced(r, pack).Some? && Grounded(SummaryEnforced(r, pack).value, known)
    ensures Grounded(r, known)
  {
    var final := SummaryEnforced(r, pack).value;
    forall s
      ensures ItemsGrounded(r.Claims(s), known)
    {
      if s != ExecutiveSummary || !NeedsSummary(r, pack) {
        assert final.Claims(s) == r.Claims(s);
        assert ItemsGrounded(final.Claims(s), known);
      }
    }
  }

  /** Flat findings are always collected, and bring nothing unknown. */
  lemma FlatIsCollectable(items: seq<Item>, known: set<string>)
    requires FlatItems(items)
    ensures AllCollectable(items) && CharactersOk(items, known)
  {
    forall i | 0 <= i < |items|
      ensures Collectable(items[i]) && BareOk(items, i, known)
    {
      assert FlatItem(items[i]);
    }
  }

  // ---------------------------------------------------------------------------------------------
  // When the summary stays empty
  // ---------------------------------------------------------------------------------------------

  lemma {:induction false} DistinctEmptyIff(ids: seq<string>)
    ensures Distinct(ids) == [] <==> ids == []
  {
    if ids != [] {
      DistinctMeaning(ids);
      assert ids[0] in Distinct(ids);
    }
  }

  /** After the last step the summary is empty exactly when it was, over an empty pack or with nothing to quote. */
  lemma SummaryEmptyIff(r: Report, pack: seq<Evidence>)
    requires SummaryEnforced(r, pack).Some?
    requires ExecutiveSummary in r.sections && r.sections[ExecutiveSummary].Items?
    ensures SummaryEnforced(r, pack).value.Claims(ExecutiveSummary) == [] <==>
              r.Claims(ExecutiveSummary) == [] && (pack == [] || LooseRefs(Leading(r)) == [])
  {
    RawRefsAre(Leading(r));
    DistinctEmptyIff(LooseRefs(Leading(r)));
    if NeedsSummary(r, pack) {
      var few := Take(Distinct(LooseRefs(Leading(r))), 5);
      if few != [] {
        assert SummaryEnforced(r, pack).value.Claims(ExecutiveSummary) == [Citing(few)];
      }
    }
  }
}
