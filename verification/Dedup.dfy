/**
  Evidence deduplication in two passes (apps/edr/graph/node_09_normalize.py): by (uri, hash), the
  higher source priority winning, and then by (source type, normalised title).
*/
module Dedup {
  import opened Wrappers
  import opened SourceTypes

  function Priority(t: SourceType): nat {
    match t
    case Odoo => 3
    case SharePoint => 2
    case OwnCloud => 2
    case Email => 1
    case Cad => 0
  }

  datatype Item = Item(id: string, uri: string, hash: string, sourceType: SourceType, title: string)

  datatype HashKey = HashKey(uri: string, hash: string)
  datatype TitleKey = TitleKey(sourceType: SourceType, title: string)

  function KeyOf(item: Item): HashKey {
    HashKey(item.uri, item.hash)
  }

  /** `norm` strips and lower-cases a title; an item whose title normalises to nothing has no key. */
  function TitleOf(norm: string -> string, item: Item): Option<TitleKey> {
    if norm(item.title) == "" then None else Some(TitleKey(item.sourceType, norm(item.title)))
  }

  // ---------------------------------------------------------------------------------------------
  // Reference definitions of the two passes
  // ---------------------------------------------------------------------------------------------

  /** A dictionary that remembers the order in which its keys were first inserted. */
  datatype Dict = Dict(keys: seq<HashKey>, at: map<HashKey, Item>)
  {
    ghost predicate Valid() {
      && (forall i :: 0 <= i < |keys| ==> keys[i] in at)
      && (forall k :: k in at ==> k in keys)
      && (forall i, j :: 0 <= i < j < |keys| ==> keys[i] != keys[j])
    }

    function Values(): seq<Item>
      requires forall i :: 0 <= i < |keys| ==> keys[i] in at
    {
      seq(|keys|, i requires 0 <= i < |keys| => at[keys[i]])
    }
  }

  function Insert(d: Dict, item: Item): Dict {
    var k := KeyOf(item);
    if k !in d.at then Dict(d.keys + [k], d.at[k := item])
    else if Priority(item.sourceType) > Priority(d.at[k].sourceType) then d.(at := d.at[k := item])
    else d
  }

  function ByHash(items: seq<Item>): (d: Dict)
    ensures d.Valid()
  {
    if items == [] then Dict([], map[]) else Insert(ByHash(items[..|items| - 1]), items[|items| - 1])
  }

  /** Keep the first item of each title key, and every item without one. */
  function ByTitle(norm: string -> string, items: seq<Item>): (kept: seq<Item>)
    ensures |kept| <= |items|
  {
    if items == [] then [] else
    var before := ByTitle(norm, items[..|items| - 1]);
    var last := items[|items| - 1];
    if TitleOf(norm, last).Some? && TitleOf(norm, last) in TitlesOf(norm, items[..|items| - 1])
    then before else before + [last]
  }

  function TitlesOf(norm: string -> string, items: seq<Item>): set<Option<TitleKey>> {
    set item | item in items :: TitleOf(norm, item)
  }

  function Deduped(norm: string -> string, items: seq<Item>): seq<Item> {
    ByTitle(norm, ByHash(items).Values())
  }

  // ---------------------------------------------------------------------------------------------
  // The node
  // ---------------------------------------------------------------------------------------------

  /** First pass: the dictionary `seen`, filled in evidence order. */
  method HashPass(items: seq<Item>) returns (unique: seq<Item>)
    ensures unique == ByHash(items).Values() && |unique| <= |items|
  {
    var keys: seq<HashKey>, seen: map<HashKey, Item> := [], map[];
    for i := 0 to |items|
      invariant Dict(keys, seen) == ByHash(items[..i])
      invariant |keys| <= i
    {
      assert items[..i + 1][..i] == items[..i];
      var item := items[i];
      var key := KeyOf(item);
      if key !in seen {
        keys, seen := keys + [key], seen[key := item];
      } else if Priority(item.sourceType) > Priority(seen[key].sourceType) {
        seen := seen[key := item];
      }
    }
    assert items[..|items|] == items;
    unique := Dict(keys, seen).Values();
  }

  /** Second pass: the set `title_seen` of composite keys. */
  method TitlePass(norm: string -> string, unique: seq<Item>) returns (deduped: seq<Item>)
    ensures deduped == ByTitle(norm, unique)
  {
    deduped := [];
    var titleSeen: set<TitleKey> := {};
    for i := 0 to |unique|
      invariant deduped == ByTitle(norm, unique[..i])
      invariant forall t :: t in titleSeen <==> Some(t) in TitlesOf(norm, unique[..i])
    {
      assert unique[..i + 1][..i] == unique[..i];
      assert TitlesOf(norm, unique[..i + 1]) == TitlesOf(norm, unique[..i]) + {TitleOf(norm, unique[i])};
      var key := TitleOf(norm, unique[i]);
      if key.None? {
        deduped := deduped + [unique[i]];
      } else if key.value !in titleSeen {
        titleSeen := titleSeen + {key.value};
        deduped := deduped + [unique[i]];
      }
    }
    assert unique[..|unique|] == unique;
  }

  class DecisionState {
    var evidence: seq<Item>
    var evidenceCount: nat
    var removed: nat

    constructor (evidence: seq<Item>)
      ensures this.evidence == evidence
    {
      this.evidence, evidenceCount, removed := evidence, 0, 0;
    }

    method Normalize(norm: string -> string)
      modifies this
      ensures evidence == Deduped(norm, old(evidence))
      ensures evidenceCount == |evidence| && removed + |evidence| == |old(evidence)|
    {
      var unique := HashPass(evidence);
      var deduped := TitlePass(norm, unique);
      removed := |evidence| - |deduped|;
      evidence := deduped;
      evidenceCount := |deduped|;
    }
  }

  // ---------------------------------------------------------------------------------------------
  // The first pass, in terms of positions
  // ---------------------------------------------------------------------------------------------

  /** Item `i` represents its hash group: no item of the group outranks it, and no earlier one equals it. */
  ghost predicate Represents(items: seq<Item>, i: nat)
    requires i < |items|
  {
    forall j :: 0 <= j < |items| && KeyOf(items[j]) == KeyOf(items[i]) ==>
      && Priority(items[j].sourceType) <= Priority(items[i].sourceType)
      && (j < i ==> Priority(items[j].sourceType) < Priority(items[i].sourceType))
  }

  /** Item `i` is the first of its hash group. */
  ghost predicate OpensGroup(items: seq<Item>, i: nat)
    requires i < |items|
  {
    forall j :: 0 <= j < i ==> KeyOf(items[j]) != KeyOf(items[i])
  }

  ghost predicate Increasing(positions: seq<nat>) {
    forall a, b :: 0 <= a < b < |positions| ==> positions[a] < positions[b]
  }

  ghost predicate HasKey(items: seq<Item>, k: HashKey) {
    exists i :: 0 <= i < |items| && KeyOf(items[i]) == k
  }

  lemma HasKeySnoc(front: seq<Item>, last: Item, k: HashKey)
    ensures HasKey(front + [last], k) <==> HasKey(front, k) || KeyOf(last) == k
  {
    var items := front + [last];
    assert items[|front|] == last;
    if i :| 0 <= i < |front| && KeyOf(front[i]) == k { assert items[i] == front[i]; }
    if i :| 0 <= i < |items| && KeyOf(items[i]) == k {
      if i < |front| { assert items[i] == front[i]; }
    }
  }

  lemma {:induction false} KeysAreThoseOfItems(items: seq<Item>, k: HashKey)
    ensures k in ByHash(items).at <==> HasKey(items, k)
  {
    if items != [] {
      var n := |items| - 1;
      KeysAreThoseOfItems(items[..n], k);
      assert items == items[..n] + [items[n]];
      HasKeySnoc(items[..n], items[n], k);
    }
  }

  /** How one more item changes who represents a group. */
  lemma RepresentsSnoc(front: seq<Item>, last: Item, i: nat)
    requires i < |front| && Represents(front, i)
    ensures
      var items := front + [last];
      if KeyOf(last) == KeyOf(front[i]) && Priority(last.sourceType) > Priority(front[i].sourceType)
      then Represents(items, |front|) else Represents(items, i)
  {
    var items := front + [last];
    forall j | 0 <= j < |items|
      ensures items[j] == if j < |front| then front[j] else last
    {}
  }

  lemma FirstRepresents(front: seq<Item>, last: Item)
    requires !HasKey(front, KeyOf(last))
    ensures Represents(front + [last], |front|) && OpensGroup(front + [last], |front|)
  {
    var items := front + [last];
    forall j | 0 <= j < |front|
      ensures KeyOf(items[j]) != KeyOf(last)
    {
      assert items[j] == front[j];
    }
  }

  /** One more item keeps the dictionary's entry for a group its representative. */
  lemma RepresentativeStep(d: Dict, front: seq<Item>, last: Item, k: HashKey, i: nat) returns (j: nat)
    requires i < |front| && Represents(front, i) && KeyOf(front[i]) == k && k in d.at && d.at[k] == front[i]
    ensures j <= |front| && Represents(front + [last], j) && KeyOf((front + [last])[j]) == k
    ensures Insert(d, last).at[k] == (front + [last])[j]
  {
    RepresentsSnoc(front, last, i);
    assert (front + [last])[i] == front[i] && (front + [last])[|front|] == last;
    j := if k == KeyOf(last) && Priority(last.sourceType) > Priority(front[i].sourceType) then |front| else i;
  }

  /** Each group is represented by its earliest item of greatest source priority. */
  lemma {:induction false} GroupRepresentative(items: seq<Item>, k: HashKey) returns (i: nat)
    requires k in ByHash(items).at
    ensures i < |items| && Represents(items, i) && KeyOf(items[i]) == k && ByHash(items).at[k] == items[i]
  {
    var n := |items| - 1;
    var front, last := items[..n], items[n];
    assert items == front + [last];
    if k in ByHash(front).at {
      i := GroupRepresentative(front, k);
      i := RepresentativeStep(ByHash(front), front, last, k, i);
    } else {
      i := n;
      KeysAreThoseOfItems(front, k);
      FirstRepresents(front, last);
    }
  }

  /** `openings` are the positions, in increasing order, where the groups `keys` open. */
  ghost predicate OpenAt(items: seq<Item>, keys: seq<HashKey>, openings: seq<nat>) {
    && |openings| == |keys| && Increasing(openings)
    && (forall a :: 0 <= a < |keys| ==>
          openings[a] < |items| && OpensGroup(items, openings[a]) && KeyOf(items[openings[a]]) == keys[a])
  }

  lemma OpenAtSnoc(front: seq<Item>, last: Item, keys: seq<HashKey>, openings: seq<nat>)
    requires OpenAt(front, keys, openings)
    ensures OpenAt(front + [last], keys, openings)
    ensures !HasKey(front, KeyOf(last)) ==> OpenAt(front + [last], keys + [KeyOf(last)], openings + [|front|])
  {
    var items := front + [last];
    forall a | 0 <= a < |keys|
      ensures OpensGroup(items, openings[a]) && items[openings[a]] == front[openings[a]]
    {
      assert forall j :: 0 <= j < openings[a] ==> items[j] == front[j];
    }
    if !HasKey(front, KeyOf(last)) {
      FirstRepresents(front, last);
    }
  }

  /** The order of the groups is the order in which they open. */
  lemma {:induction false} GroupsInOrder(items: seq<Item>) returns (openings: seq<nat>)
    ensures OpenAt(items, ByHash(items).keys, openings)
  {
    if items == [] {
      openings := [];
    } else {
      var n := |items| - 1;
      var front, last := items[..n], items[n];
      assert items == front + [last];
      openings := GroupsInOrder(front);
      OpenAtSnoc(front, last, ByHash(front).keys, openings);
      KeysAreThoseOfItems(front, KeyOf(last));
      if KeyOf(last) !in ByHash(front).at {
        openings := openings + [n];
      }
    }
  }

  // ---------------------------------------------------------------------------------------------
  // The second pass, in terms of positions
  // ---------------------------------------------------------------------------------------------

  /** Item `i` has no title, or is the first of its title key. */
  ghost predicate OpensTitle(norm: string -> string, items: seq<Item>, i: nat)
    requires i < |items|
  {
    TitleOf(norm, items[i]).Some? ==> forall j :: 0 <= j < i ==> TitleOf(norm, items[j]) != TitleOf(norm, items[i])
  }

  /** `positions` are, in order, where the items `kept` stand, and are exactly those that open a title. */
  ghost predicate Selects(norm: string -> string, items: seq<Item>, kept: seq<Item>, positions: seq<nat>) {
    && |positions| == |kept| && Increasing(positions)
    && (forall a :: 0 <= a < |kept| ==> positions[a] < |items| && kept[a] == items[positions[a]])
    && (forall i: nat :: i < |items| ==> (i in positions <==> OpensTitle(norm, items, i)))
  }

  lemma OpensTitleSnoc(norm: string -> string, front: seq<Item>, last: Item)
    ensures forall i: nat :: i < |front| ==> (OpensTitle(norm, front + [last], i) <==> OpensTitle(norm, front, i))
    ensures OpensTitle(norm, front + [last], |front|) <==>
              !(TitleOf(norm, last).Some? && TitleOf(norm, last) in TitlesOf(norm, front))
  {
    var items := front + [last];
    forall i: nat | i < |front|
      ensures OpensTitle(norm, items, i) <==> OpensTitle(norm, front, i)
    {
      assert items[i] == front[i] && forall j :: 0 <= j < i ==> items[j] == front[j];
    }
    assert items[|front|] == last;
    if TitleOf(norm, last) in TitlesOf(norm, front) {
      var item :| item in front && TitleOf(norm, item) == TitleOf(norm, last);
      var j :| 0 <= j < |front| && front[j] == item;
      assert items[j] == item;
    } else {
      forall j | 0 <= j < |front|
        ensures TitleOf(norm, items[j]) != TitleOf(norm, last)
      {
        assert items[j] == front[j] && front[j] in front;
      }
    }
  }

  lemma SelectsSnoc(norm: string -> string, front: seq<Item>, last: Item, kept: seq<Item>, positions: seq<nat>)
    requires Selects(norm, front, kept, positions)
    ensures
      if TitleOf(norm, last).Some? && TitleOf(norm, last) in TitlesOf(norm, front)
      then Selects(norm, front + [last], kept, positions)
      else Selects(norm, front + [last], kept + [last], positions + [|front|])
  {
    var items := front + [last];
    OpensTitleSnoc(norm, front, last);
    assert forall a :: 0 <= a < |kept| ==> items[positions[a]] == front[positions[a]];
    assert forall p :: p in positions ==> p < |front|;
    assert forall p :: p in positions + [|front|] <==> p in positions || p == |front|;
  }

  /** The second pass keeps exactly the items that open their title, in their order. */
  lemma {:induction false} TitlePassSelects(norm: string -> string, items: seq<Item>) returns (positions: seq<nat>)
    ensures Selects(norm, items, ByTitle(norm, items), positions)
  {
    if items == [] {
      positions := [];
    } else {
      var n := |items| - 1;
      var front, last := items[..n], items[n];
      assert items == front + [last];
      positions := TitlePassSelects(norm, front);
      SelectsSnoc(norm, front, last, ByTitle(norm, front), positions);
      if !(TitleOf(norm, last).Some? && TitleOf(norm, last) in TitlesOf(norm, front)) {
        positions := positions + [n];
      }
    }
  }

  // ---------------------------------------------------------------------------------------------
  // The whole node
  // ---------------------------------------------------------------------------------------------

  ghost predicate UniqueKeys(items: seq<Item>) {
    forall i, j :: 0 <= i < j < |items| ==> KeyOf(items[i]) != KeyOf(items[j])
  }

  ghost predicate UniqueTitles(norm: string -> string, items: seq<Item>) {
    forall i, j :: 0 <= i < j < |items| && TitleOf(norm, items[j]).Some? ==>
      TitleOf(norm, items[i]) != TitleOf(norm, items[j])
  }

  lemma RepresentativesKeepKeys(items: seq<Item>)
    ensures
      var d := ByHash(items);
      forall a :: 0 <= a < |d.keys| ==> KeyOf(d.Values()[a]) == d.keys[a]
  {
    var d := ByHash(items);
    forall a | 0 <= a < |d.keys|
      ensures KeyOf(d.Values()[a]) == d.keys[a]
    {
      var i := GroupRepresentative(items, d.keys[a]);
    }
  }

  lemma SelectedKeysUnique(norm: string -> string, unique: seq<Item>, out: seq<Item>, positions: seq<nat>)
    requires Selects(norm, unique, out, positions) && UniqueKeys(unique)
    ensures UniqueKeys(out) && UniqueTitles(norm, out)
  {
    forall i, j | 0 <= i < j < |out|
      ensures KeyOf(out[i]) != KeyOf(out[j])
      ensures TitleOf(norm, out[j]).Some? ==> TitleOf(norm, out[i]) != TitleOf(norm, out[j])
    {
      assert positions[j] in positions && positions[i] < positions[j];
      assert OpensTitle(norm, unique, positions[j]);
    }
  }

  /** `item` stands in the evidence and represents its group there. */
  ghost predicate IsRepresentative(items: seq<Item>, item: Item) {
    exists i :: 0 <= i < |items| && items[i] == item && Represents(items, i)
  }

  lemma UniqueByHash(items: seq<Item>)
    ensures
      var unique := ByHash(items).Values();
      UniqueKeys(unique) && forall a :: 0 <= a < |unique| ==> IsRepresentative(items, unique[a])
  {
    var d := ByHash(items);
    RepresentativesKeepKeys(items);
    forall a | 0 <= a < |d.keys|
      ensures IsRepresentative(items, d.Values()[a])
    {
      var i := GroupRepresentative(items, d.keys[a]);
    }
  }

  /**
    What is returned: hash keys are unique, (type, title) pairs are unique, and every item is the
    representative of its group.
  */
  lemma DedupMeetsItsSpecification(norm: string -> string, items: seq<Item>)
    ensures
      var out := Deduped(norm, items);
      && UniqueKeys(out) && UniqueTitles(norm, out)
      && (forall a :: 0 <= a < |out| ==> IsRepresentative(items, out[a]))
  {
    var unique := ByHash(items).Values();
    UniqueByHash(items);
    var positions := TitlePassSelects(norm, unique);
    SelectedKeysUnique(norm, unique, Deduped(norm, items), positions);
  }

  /** Every group is accounted for: its representative is kept, or an earlier kept one has its type and title. */
  lemma DroppedOnlyForATitle(norm: string -> string, items: seq<Item>, a: nat)
    requires a < |ByHash(items).keys|
    ensures
      var unique := ByHash(items).Values();
      || unique[a] in Deduped(norm, items)
      || exists b :: 0 <= b < a && unique[b] in Deduped(norm, items)
                  && TitleOf(norm, unique[b]) == TitleOf(norm, unique[a]) && TitleOf(norm, unique[a]).Some?
  {
    var unique := ByHash(items).Values();
    var positions := TitlePassSelects(norm, unique);
    if a !in positions {
      assert !OpensTitle(norm, unique, a);
      var b := FirstWithTitle(norm, unique, a);
      assert b in positions;
    }
  }

  lemma FirstWithTitle(norm: string -> string, items: seq<Item>, i: nat) returns (b: nat)
    requires i < |items| && !OpensTitle(norm, items, i)
    ensures b < i && TitleOf(norm, items[b]) == TitleOf(norm, items[i]) && OpensTitle(norm, items, b)
  {
    var j: nat :| j < i && TitleOf(norm, items[j]) == TitleOf(norm, items[i]);
    if OpensTitle(norm, items, j) {
      b := j;
    } else {
      b := FirstWithTitle(norm, items, j);
    }
  }

  /** The kept items stand in the order in which their groups open in the evidence. */
  lemma KeptInOrderOfGroups(norm: string -> string, items: seq<Item>) returns (openings: seq<nat>)
    ensures
      var out := Deduped(norm, items);
      && |openings| == |out| && Increasing(openings)
      && (forall a :: 0 <= a < |out| ==>
            openings[a] < |items| && OpensGroup(items, openings[a]) && KeyOf(items[openings[a]]) == KeyOf(out[a]))
  {
    var unique := ByHash(items).Values();
    RepresentativesKeepKeys(items);
    var groups := GroupsInOrder(items);
    var positions := TitlePassSelects(norm, unique);
    openings := ComposedOrder(norm, items, unique, ByHash(items).keys, groups, Deduped(norm, items), positions);
  }

  lemma ComposedOrder(norm: string -> string, items: seq<Item>, unique: seq<Item>, keys: seq<HashKey>,
                      groups: seq<nat>, out: seq<Item>, positions: seq<nat>) returns (openings: seq<nat>)
    requires OpenAt(items, keys, groups) && Selects(norm, unique, out, positions) && |unique| == |keys|
    requires forall a :: 0 <= a < |keys| ==> KeyOf(unique[a]) == keys[a]
    ensures |openings| == |out| && Increasing(openings)
    ensures forall a :: 0 <= a < |out| ==>
              openings[a] < |items| && OpensGroup(items, openings[a]) && KeyOf(items[openings[a]]) == KeyOf(out[a])
  {
    openings := seq(|positions|, a requires 0 <= a < |positions| => groups[positions[a]]);
  }

  ghost predicate Lists(d: Dict, items: seq<Item>) {
    && |d.keys| == |items|
    && (forall a :: 0 <= a < |items| ==> d.keys[a] == KeyOf(items[a]))
    && (forall a :: 0 <= a < |items| ==> KeyOf(items[a]) in d.at && d.at[KeyOf(items[a])] == items[a])
  }

  lemma ListsSnoc(d: Dict, front: seq<Item>, last: Item)
    requires Lists(d, front) && !HasKey(front, KeyOf(last)) && KeyOf(last) !in d.at
    ensures Lists(Insert(d, last), front + [last])
  {
    assert forall a :: 0 <= a < |front| ==> KeyOf(front[a]) != KeyOf(last);
  }

  lemma {:induction false} UniqueKeysAreListed(items: seq<Item>)
    requires UniqueKeys(items)
    ensures Lists(ByHash(items), items)
  {
    if items != [] {
      var n := |items| - 1;
      UniqueKeysAreListed(items[..n]);
      KeysAreThoseOfItems(items[..n], KeyOf(items[n]));
      ListsSnoc(ByHash(items[..n]), items[..n], items[n]);
      assert items == items[..n] + [items[n]];
    }
  }

  lemma UniqueKeysAreFixed(items: seq<Item>)
    requires UniqueKeys(items)
    ensures ByHash(items).Values() == items
  {
    UniqueKeysAreListed(items);
    assert ByHash(items).Values() == items;
  }

  lemma {:induction false} UniqueTitlesAreFixed(norm: string -> string, items: seq<Item>)
    requires UniqueTitles(norm, items)
    ensures ByTitle(norm, items) == items
  {
    if items != [] {
      UniqueTitlesAreFixed(norm, items[..|items| - 1]);
    }
  }

  /** Running the node twice changes nothing. */
  lemma DedupIsIdempotent(norm: string -> string, items: seq<Item>)
    ensures Deduped(norm, Deduped(norm, items)) == Deduped(norm, items)
  {
    DedupMeetsItsSpecification(norm, items);
    UniqueKeysAreFixed(Deduped(norm, items));
    UniqueTitlesAreFixed(norm, Deduped(norm, items));
  }
}
