/** What remapping promises: valid ids stay valid, sources are exactly what is cited, and once is enough. */
module CitationLaws {
  import opened Finance
  import opened Citations

  ghost predicate AllIn(ids: seq<string>, known: set<string>) {
    forall i :: 0 <= i < |ids| ==> ids[i] in known
  }

  /** A claim that cites something, and only known ids. */
  ghost predicate ItemGrounded(item: Item, known: set<string>) {
    item.Claim? ==> Flatten(item.ids) != [] && AllIn(Flatten(item.ids), known)
  }

  ghost predicate ItemsGrounded(items: seq<Item>, known: set<string>) {
    forall i :: 0 <= i < |items| ==> ItemGrounded(items[i], known)
  }

  /** Every claim of every section cites something, and only known ids. */
  ghost predicate Grounded(r: Report, known: set<string>) {
    forall s :: ItemsGrounded(r.Claims(s), known)
  }

  // ---------------------------------------------------------------------------------------------
  // Lookups lead to the pack
  // ---------------------------------------------------------------------------------------------

  lemma PackSnoc(pack: seq<Evidence>)
    requires pack != []
    ensures IdsOf(pack) == IdsOf(pack[..|pack| - 1]) + {pack[|pack| - 1].id}
  {
    assert pack == pack[..|pack| - 1] + [pack[|pack| - 1]];
  }

  lemma {:induction false} LookupsLeadToPack(norm: string -> string, pack: seq<Evidence>)
    ensures forall t :: t in ByTitle(norm, pack) ==>
                ByTitle(norm, pack)[t] in IdsOf(pack) && ByTitle(norm, pack)[t] != ""
    ensures forall u :: u in ByUri(norm, pack) ==> ByUri(norm, pack)[u] in IdsOf(pack) && ByUri(norm, pack)[u] != ""
  {
    if pack != [] {
      PackSnoc(pack);
      LookupsLeadToPack(norm, pack[..|pack| - 1]);
    }
  }

  /** Invented ids are replaced by ids of the pack only. */
  ghost predicate LeadsToPack(synth: map<string, string>, known: set<string>) {
    forall id :: id in synth ==> synth[id] in known && synth[id] != ""
  }

  ghost predicate IsSource(id: string, sources: seq<SourceEntry>) {
    exists i :: 0 <= i < |sources| && sources[i].sourceId == id
  }

  lemma {:induction false} SyntheticLeadsToPack(norm: string -> string, sources: seq<SourceEntry>, pack: seq<Evidence>)
    ensures LeadsToPack(Synthetic(norm, sources, pack), IdsOf(pack))
  {
    if sources != [] {
      SyntheticLeadsToPack(norm, sources[..|sources| - 1], pack);
      LookupsLeadToPack(norm, pack);
    }
  }

  lemma {:induction false} SyntheticAreSources(norm: string -> string, sources: seq<SourceEntry>, pack: seq<Evidence>,
                                               id: string)
    requires id in Synthetic(norm, sources, pack)
    ensures IsSource(id, sources)
  {
    var n := |sources| - 1;
    if id in Synthetic(norm, sources[..n], pack) {
      SyntheticAreSources(norm, sources[..n], pack, id);
      var i :| 0 <= i < |sources[..n]| && sources[..n][i].sourceId == id;
      assert sources[i].sourceId == id;
    } else {
      assert sources[n].sourceId == id;
    }
  }

  // ---------------------------------------------------------------------------------------------
  // Which citations move
  // ---------------------------------------------------------------------------------------------

  /** The entry is labelled with the id, but by its title, or else its reference, stands for another. */
  ghost predicate Mislabels(norm: string -> string, entry: SourceEntry, pack: seq<Evidence>, id: string) {
    entry.sourceId == id && id != "" && RealId(norm, entry, pack).Some? && RealId(norm, entry, pack).value != id
  }

  ghost predicate SomeMislabels(norm: string -> string, sources: seq<SourceEntry>, pack: seq<Evidence>, id: string) {
    exists i :: 0 <= i < |sources| && Mislabels(norm, sources[i], pack, id)
  }

  lemma SomeMislabelsSnoc(norm: string -> string, front: seq<SourceEntry>, last: SourceEntry, pack: seq<Evidence>,
                          id: string)
    ensures SomeMislabels(norm, front + [last], pack, id) <==>
              SomeMislabels(norm, front, pack, id) || Mislabels(norm, last, pack, id)
  {
    var all := front + [last];
    assert all[|front|] == last;
    if i :| 0 <= i < |front| && Mislabels(norm, front[i], pack, id) { assert all[i] == front[i]; }
    if i :| 0 <= i < |all| && Mislabels(norm, all[i], pack, id) {
      if i < |front| { assert all[i] == front[i]; }
    }
  }

  /** An id is renamed exactly when some source entry labelled with it stands for another, and never to itself. */
  lemma {:induction false} RenamedIff(norm: string -> string, sources: seq<SourceEntry>, pack: seq<Evidence>,
                                      id: string)
    ensures
      var synth := Synthetic(norm, sources, pack);
      && (id in synth <==> SomeMislabels(norm, sources, pack, id))
      && (id in synth ==> synth[id] != id)
  {
    if sources != [] {
      var n := |sources| - 1;
      RenamedIff(norm, sources[..n], pack, id);
      SomeMislabelsSnoc(norm, sources[..n], sources[n], pack, id);
      assert sources == sources[..n] + [sources[n]];
    }
  }

  /**
    When a remap moves a citation, for every id, pack and source list: exactly when some source
    entry labelled with the id resolves, by title and then by reference, to another id.
  */
  lemma CitationMovesIff(norm: string -> string, r: Report, pack: seq<Evidence>, id: string)
    ensures Resolve(Synthetic(norm, r.sources, pack), id) != id <==> SomeMislabels(norm, r.sources, pack, id)
  {
    RenamedIff(norm, r.sources, pack, id);
  }

  // ---------------------------------------------------------------------------------------------
  // Flat lists
  // ---------------------------------------------------------------------------------------------

  lemma {:induction false} FlattenFlat(ids: seq<string>)
    ensures FlattenElems(FlatIds(ids)) == ids
  {
    if ids != [] {
      FlattenFlat(ids[1..]);
      assert FlatIds(ids)[1..] == FlatIds(ids[1..]);
    }
  }

  lemma CitingCites(ids: seq<string>)
    ensures Flatten(Citing(ids).ids) == ids
  {
    FlattenFlat(ids);
  }

  lemma RemappedIds(synth: map<string, string>, item: Item)
    requires item.Claim?
    ensures Flatten(RemapItem(synth, item).ids) == ResolveAll(synth, Flatten(item.ids))
  {
    FlattenFlat(ResolveAll(synth, Flatten(item.ids)));
  }

  /** Remapping sends valid ids to valid ids, and leaves an unknown id unknown unless it renames it. */
  lemma RemapItemKeepsGrounding(synth: map<string, string>, item: Item, known: set<string>)
    requires LeadsToPack(synth, known)
    ensures ItemGrounded(item, known) ==> ItemGrounded(RemapItem(synth, item), known)
    ensures synth.Keys <= known ==> (ItemGrounded(item, known) <==> ItemGrounded(RemapItem(synth, item), known))
  {
    if item.Claim? {
      RemappedIds(synth, item);
      var ids := Flatten(item.ids);
      var after := ResolveAll(synth, ids);
      if synth.Keys <= known && AllIn(after, known) {
        forall i | 0 <= i < |ids|
          ensures ids[i] in known
        {
          assert after[i] == Resolve(synth, ids[i]);
        }
      }
    }
  }

  lemma RemapKeepsGrounding(norm: string -> string, r: Report, pack: seq<Evidence>)
    requires Remap(norm, r, pack).Some?
    ensures Grounded(r, IdsOf(pack)) ==> Grounded(Remap(norm, r, pack).value, IdsOf(pack))
    ensures Synthetic(norm, r.sources, pack).Keys <= IdsOf(pack) ==>
              (Grounded(r, IdsOf(pack)) <==> Grounded(Remap(norm, r, pack).value, IdsOf(pack)))
  {
    var synth := Synthetic(norm, r.sources, pack);
    var after := Remap(norm, r, pack).value;
    SyntheticLeadsToPack(norm, r.sources, pack);
    if synth != map[] {
      forall s
        ensures after.Claims(s) == RemapItems(synth, r.Claims(s))
        ensures ItemsGrounded(r.Claims(s), IdsOf(pack)) ==> ItemsGrounded(after.Claims(s), IdsOf(pack))
        ensures synth.Keys <= IdsOf(pack) ==>
                  (ItemsGrounded(r.Claims(s), IdsOf(pack)) <==> ItemsGrounded(after.Claims(s), IdsOf(pack)))
      {
        RemapItemsKeepGrounding(synth, r.Claims(s), IdsOf(pack));
      }
    }
  }

  lemma RemapItemsKeepGrounding(synth: map<string, string>, items: seq<Item>, known: set<string>)
    requires LeadsToPack(synth, known)
    ensures ItemsGrounded(items, known) ==> ItemsGrounded(RemapItems(synth, items), known)
    ensures synth.Keys <= known ==> (ItemsGrounded(items, known) <==> ItemsGrounded(RemapItems(synth, items), known))
  {
    var after := RemapItems(synth, items);
    forall i | 0 <= i < |items|
      ensures after[i] == RemapItem(synth, items[i])
      ensures ItemGrounded(items[i], known) ==> ItemGrounded(after[i], known)
      ensures synth.Keys <= known ==> (ItemGrounded(items[i], known) <==> ItemGrounded(after[i], known))
    {
      RemapItemKeepsGrounding(synth, items[i], known);
    }
  }

  // ---------------------------------------------------------------------------------------------
  // Rebuilt sources
  // ---------------------------------------------------------------------------------------------

  lemma {:induction false} LessIsTotal(a: string, b: string)
    ensures Less(a, b) || a == b || Less(b, a)
  {
    if a != "" && b != "" && a[0] == b[0] {
      LessIsTotal(a[1..], b[1..]);
      assert a == [a[0]] + a[1..] && b == [b[0]] + b[1..];
    }
  }

  lemma {:induction false} LessIsTransitive(a: string, b: string, c: string)
    requires Less(a, b) && Less(b, c)
    ensures Less(a, c)
  {
    if a != "" && a[0] == b[0] && b[0] == c[0] {
      LessIsTransitive(a[1..], b[1..], c[1..]);
    }
  }

  lemma {:induction false} LessIsIrreflexive(a: string)
    ensures !Less(a, a)
  {
    if a != "" { LessIsIrreflexive(a[1..]); }
  }

  ghost predicate Ascending(ids: seq<string>) {
    forall i, j :: 0 <= i < j < |ids| ==> Less(ids[i], ids[j])
  }

  lemma {:induction false} InsertKeepsAscending(x: string, sorted: seq<string>)
    requires Ascending(sorted)
    ensures Ascending(InsertUnique(x, sorted))
    ensures forall y :: y in InsertUnique(x, sorted) <==> y == x || y in sorted
  {
    if sorted != [] && x != sorted[0] {
      if Less(x, sorted[0]) {
        forall j | 0 <= j < |sorted|
          ensures Less(x, sorted[j])
        {
          if j > 0 { LessIsTransitive(x, sorted[0], sorted[j]); }
        }
      } else {
        LessIsTotal(x, sorted[0]);
        InsertKeepsAscending(x, sorted[1..]);
        var rest := InsertUnique(x, sorted[1..]);
        forall j | 0 <= j < |rest|
          ensures Less(sorted[0], rest[j])
        {
          if rest[j] != x {
            assert rest[j] in sorted[1..];
          }
        }
      }
    }
  }

  lemma {:induction false} SortedIds(ids: seq<string>)
    ensures Ascending(SortIds(ids))
    ensures forall x :: x in SortIds(ids) <==> x in ids
  {
    if ids != [] {
      SortedIds(ids[1..]);
      InsertKeepsAscending(ids[0], SortIds(ids[1..]));
      assert ids == [ids[0]] + ids[1..];
    }
  }

  lemma {:induction false} EvidenceByIdMeaning(pack: seq<Evidence>, id: string)
    ensures EvidenceById(pack, id).Some? <==> id in IdsOf(pack)
    ensures EvidenceById(pack, id).Some? ==>
                EvidenceById(pack, id).value in pack && EvidenceById(pack, id).value.id == id
  {
    if pack != [] {
      PackSnoc(pack);
      EvidenceByIdMeaning(pack[..|pack| - 1], id);
    }
  }

  /** The entries' ids, in order. */
  function EntryIds(entries: seq<SourceEntry>): (r: seq<string>)
    ensures |r| == |entries| && forall i :: 0 <= i < |r| ==> r[i] == entries[i].sourceId
  {
    seq(|entries|, i requires 0 <= i < |entries| => entries[i].sourceId)
  }

  /** `sources` lists exactly the cited evidence of the pack: each once, by ascending id, as it is in the pack. */
  ghost predicate ListsCited(sources: seq<SourceEntry>, cited: seq<string>, pack: seq<Evidence>) {
    && Ascending(EntryIds(sources))
    && (forall id :: id in EntryIds(sources) <==> id in cited && id in IdsOf(pack))
    && (forall i :: 0 <= i < |sources| ==> EntryOfPack(sources[i], pack))
  }

  ghost predicate EntryOfPack(entry: SourceEntry, pack: seq<Evidence>) {
    && EvidenceById(pack, entry.sourceId).Some?
    && entry.title == EvidenceById(pack, entry.sourceId).value.title
    && entry.reference == EvidenceById(pack, entry.sourceId).value.uri
  }

  lemma {:induction false} EntriesMeaning(sorted: seq<string>, pack: seq<Evidence>)
    requires Ascending(sorted)
    ensures ListsCited(EntriesFor(sorted, pack), sorted, pack)
  {
    if sorted != [] {
      EntriesMeaning(sorted[1..], pack);
      EvidenceByIdMeaning(pack, sorted[0]);
      var rest, entries := EntriesFor(sorted[1..], pack), EntriesFor(sorted, pack);
      assert sorted == [sorted[0]] + sorted[1..];
      if EvidenceById(pack, sorted[0]).Some? {
        assert EntryIds(entries) == [sorted[0]] + EntryIds(rest);
        forall j | 0 <= j < |rest|
          ensures Less(sorted[0], EntryIds(rest)[j])
        {
          assert EntryIds(rest)[j] in EntryIds(rest);
          assert EntryIds(rest)[j] in sorted[1..];
        }
      } else {
        assert entries == rest;
      }
    }
  }

  lemma EntriesListCited(cited: seq<string>, pack: seq<Evidence>)
    ensures ListsCited(EntriesFor(SortIds(cited), pack), cited, pack)
  {
    SortedIds(cited);
    EntriesMeaning(SortIds(cited), pack);
  }

  /**
    Whenever a remap rewrites anything, the sources it leaves are exactly the evidence of the pack
    that a claim or the actual cost now cites.
  */
  lemma RemapRebuildsSources(norm: string -> string, r: Report, pack: seq<Evidence>)
    requires Remap(norm, r, pack).Some? && Synthetic(norm, r.sources, pack) != map[]
    ensures
      var after := Remap(norm, r, pack).value;
      ListsCited(after.sources, CitedBy(after, SECTIONS) + ActualCostId(after.snapshot), pack)
  {
    var remapped := RemapSections(Synthetic(norm, r.sources, pack), r);
    EntriesListCited(CitedBy(remapped, SECTIONS) + ActualCostId(remapped.snapshot), pack);
    CitedIgnoresSources(remapped, Remap(norm, r, pack).value, SECTIONS);
  }

  lemma AllSectionsListed(s: Section)
    ensures s in SECTIONS
  {
    assert SECTIONS[0] == ExecutiveSummary && SECTIONS[1] == KeyFindings && SECTIONS[2] == RootCauses
        && SECTIONS[3] == DelayAnalysis && SECTIONS[4] == ContractualImplications && SECTIONS[5] == RecommendedActions;
  }

  lemma {:induction false} CitedIgnoresSources(a: Report, b: Report, sections: seq<Section>)
    requires a.sections == b.sections
    ensures CitedBy(a, sections) == CitedBy(b, sections)
  {
    if sections != [] { CitedIgnoresSources(a, b, sections[..|sections| - 1]); }
  }

  // ---------------------------------------------------------------------------------------------
  // Which ids a report cites
  // ---------------------------------------------------------------------------------------------

  ghost predicate Cites(item: Item, id: string) {
    item.Claim? && id in Flatten(item.ids)
  }

  ghost predicate SomeItemCites(items: seq<Item>, id: string) {
    exists i :: 0 <= i < |items| && Cites(items[i], id)
  }

  /** Some claim of some section cites the id. */
  ghost predicate ReportCites(r: Report, id: string) {
    exists s :: SomeItemCites(r.Claims(s), id)
  }

  lemma {:induction false} CitedInMeaning(items: seq<Item>, id: string)
    ensures id in CitedIn(items) <==> SomeItemCites(items, id)
  {
    if items != [] {
      var n := |items| - 1;
      CitedInMeaning(items[..n], id);
      if SomeItemCites(items, id) {
        var i :| 0 <= i < |items| && Cites(items[i], id);
        assert i == n || Cites(items[..n][i], id);
      }
      if SomeItemCites(items[..n], id) {
        var i :| 0 <= i < |items[..n]| && Cites(items[..n][i], id);
        assert Cites(items[i], id);
      }
      if items[n].Claim? && id in Flatten(items[n].ids) {
        assert Cites(items[n], id);
      }
    }
  }

  lemma {:induction false} CitedByMeaning(r: Report, sections: seq<Section>, id: string)
    ensures id in CitedBy(r, sections) <==> exists s :: s in sections && id in CitedIn(r.Claims(s))
  {
    if sections != [] {
      CitedByMeaning(r, sections[..|sections| - 1], id);
      assert sections == sections[..|sections| - 1] + [sections[|sections| - 1]];
    }
  }

  /** `CitedBy` over the six sections is every id that a claim of the report cites. */
  lemma CitedMeaning(r: Report, id: string)
    ensures id in CitedBy(r, SECTIONS) <==> ReportCites(r, id)
  {
    CitedByMeaning(r, SECTIONS, id);
    forall s
      ensures s in SECTIONS && (id in CitedIn(r.Claims(s)) <==> SomeItemCites(r.Claims(s), id))
    {
      AllSectionsListed(s);
      CitedInMeaning(r.Claims(s), id);
    }
  }

  // ---------------------------------------------------------------------------------------------
  // What is left to rename
  // ---------------------------------------------------------------------------------------------

  /** After a remap no invented id is left to replace that is not itself an id of the pack. */
  lemma RemapLeavesOnlyKnownSources(norm: string -> string, r: Report, pack: seq<Evidence>)
    requires Remap(norm, r, pack).Some?
    ensures Synthetic(norm, Remap(norm, r, pack).value.sources, pack).Keys <= IdsOf(pack)
  {
    if Synthetic(norm, r.sources, pack) != map[] {
      RemapRebuildsSources(norm, r, pack);
      var after := Remap(norm, r, pack).value;
      ListedSourcesAreKnown(norm, after.sources, CitedBy(after, SECTIONS) + ActualCostId(after.snapshot), pack);
    }
  }

  lemma ListedSourcesAreKnown(norm: string -> string, sources: seq<SourceEntry>, cited: seq<string>,
                              pack: seq<Evidence>)
    requires ListsCited(sources, cited, pack)
    ensures Synthetic(norm, sources, pack).Keys <= IdsOf(pack)
  {
    forall id | id in Synthetic(norm, sources, pack)
      ensures id in IdsOf(pack)
    {
      SyntheticAreSources(norm, sources, pack, id);
      var i :| 0 <= i < |sources| && sources[i].sourceId == id;
      assert EntryIds(sources)[i] == id;
    }
  }

  // ---------------------------------------------------------------------------------------------
  // Remapping twice
  // ---------------------------------------------------------------------------------------------

  /** Two items of the pack with the same normalised title, or the same normalised URI, are the same. */
  ghost predicate UnambiguousPack(norm: string -> string, pack: seq<Evidence>) {
    forall i, j :: 0 <= i < |pack| && 0 <= j < |pack| ==>
      && (norm(pack[i].title) != "" && norm(pack[i].title) == norm(pack[j].title) ==> pack[i].id == pack[j].id)
      && (norm(pack[i].uri) != "" && norm(pack[i].uri) == norm(pack[j].uri) ==> pack[i].id == pack[j].id)
  }

  lemma {:induction false} ByTitleMeaning(norm: string -> string, pack: seq<Evidence>, t: string)
    requires t in ByTitle(norm, pack)
    ensures exists i :: 0 <= i < |pack| && norm(pack[i].title) == t && pack[i].id == ByTitle(norm, pack)[t]
  {
    var n := |pack| - 1;
    if pack[n].id != "" && norm(pack[n].title) == t && t != "" {
      assert pack[n].id == ByTitle(norm, pack)[t];
    } else {
      ByTitleMeaning(norm, pack[..n], t);
      var i :| 0 <= i < n && norm(pack[..n][i].title) == t && pack[..n][i].id == ByTitle(norm, pack[..n])[t];
      assert pack[i] == pack[..n][i];
    }
  }

  lemma {:induction false} ByUriMeaning(norm: string -> string, pack: seq<Evidence>, u: string)
    requires u in ByUri(norm, pack)
    ensures exists i :: 0 <= i < |pack| && norm(pack[i].uri) == u && pack[i].id == ByUri(norm, pack)[u]
  {
    var n := |pack| - 1;
    if pack[n].id != "" && norm(pack[n].uri) == u && u != "" {
      assert pack[n].id == ByUri(norm, pack)[u];
    } else {
      ByUriMeaning(norm, pack[..n], u);
      var i :| 0 <= i < n && norm(pack[..n][i].uri) == u && pack[..n][i].id == ByUri(norm, pack[..n])[u];
      assert pack[i] == pack[..n][i];
    }
  }

  /** An entry rebuilt from the pack stands for its own id. */
  lemma RebuiltEntryIsItself(norm: string -> string, entry: SourceEntry, pack: seq<Evidence>)
    requires UnambiguousPack(norm, pack)
    requires EntryOfPack(entry, pack)
    ensures RealId(norm, entry, pack).Some? ==> RealId(norm, entry, pack).value == entry.sourceId
  {
    EvidenceByIdMeaning(pack, entry.sourceId);
    var e := EvidenceById(pack, entry.sourceId).value;
    var j :| 0 <= j < |pack| && pack[j] == e;
    if norm(entry.title) != "" && norm(entry.title) in ByTitle(norm, pack) {
      ByTitleMeaning(norm, pack, norm(entry.title));
      var i :| 0 <= i < |pack| && norm(pack[i].title) == norm(entry.title)
          && pack[i].id == ByTitle(norm, pack)[norm(entry.title)];
      assert pack[i].id == pack[j].id;
    } else if norm(entry.reference) != "" && norm(entry.reference) in ByUri(norm, pack) {
      ByUriMeaning(norm, pack, norm(entry.reference));
      var i :| 0 <= i < |pack| && norm(pack[i].uri) == norm(entry.reference)
          && pack[i].id == ByUri(norm, pack)[norm(entry.reference)];
      assert pack[i].id == pack[j].id;
    }
  }

  /** In an unambiguous pack a citation whose source entries describe it correctly stays. */
  lemma CorrectCitationStays(norm: string -> string, r: Report, pack: seq<Evidence>, id: string)
    requires UnambiguousPack(norm, pack)
    requires forall i :: 0 <= i < |r.sources| && r.sources[i].sourceId == id ==> EntryOfPack(r.sources[i], pack)
    ensures Resolve(Synthetic(norm, r.sources, pack), id) == id
  {
    CitationMovesIff(norm, r, pack, id);
    if SomeMislabels(norm, r.sources, pack, id) {
      var i :| 0 <= i < |r.sources| && Mislabels(norm, r.sources[i], pack, id);
      RebuiltEntryIsItself(norm, r.sources[i], pack);
    }
  }

  lemma {:induction false} NothingSynthetic(norm: string -> string, sources: seq<SourceEntry>, pack: seq<Evidence>)
    requires forall i :: 0 <= i < |sources| ==>
      RealId(norm, sources[i], pack).Some? ==> RealId(norm, sources[i], pack).value == sources[i].sourceId
    ensures Synthetic(norm, sources, pack) == map[]
  {
    if sources != [] {
      NothingSynthetic(norm, sources[..|sources| - 1], pack);
    }
  }

  /** When titles and URIs are unambiguous in the pack, remapping a second time changes nothing. */
  lemma RemapTwice(norm: string -> string, r: Report, pack: seq<Evidence>)
    requires UnambiguousPack(norm, pack) && Remap(norm, r, pack).Some?
    ensures Remap(norm, Remap(norm, r, pack).value, pack) == Remap(norm, r, pack)
  {
    var after := Remap(norm, r, pack).value;
    if Synthetic(norm, r.sources, pack) != map[] {
      RemapRebuildsSources(norm, r, pack);
      forall i | 0 <= i < |after.sources|
        ensures RealId(norm, after.sources[i], pack).Some? ==>
                    RealId(norm, after.sources[i], pack).value == after.sources[i].sourceId
      {
        RebuiltEntryIsItself(norm, after.sources[i], pack);
      }
      NothingSynthetic(norm, after.sources, pack);
    }
  }
}
