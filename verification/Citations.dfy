/**
  The claims of a report, the ids they cite, and the remapping of invented source ids to real
  evidence ids (apps/edr/graph/node_12_draft_json.py).
*/
module Citations {
  import opened Wrappers
  import opened Answers
  import opened Finance

  // ---------------------------------------------------------------------------------------------
  // A report as the drafting model may write it
  // ---------------------------------------------------------------------------------------------

  /** One element of a list of evidence ids. */
  datatype RawId = Id(id: string) | Group(ids: seq<string>) | NullId

  /** The value under `evidence_ids`: the flat list asked for, a bare string, or a nested list. */
  datatype RawIds = Bare(id: string) | Many(elems: seq<RawId>)

  /** An object in a claim section, or anything else. */
  datatype Item = Claim(wording: Wording, ids: RawIds) | Other

  /** The value under a section key: a list, something iterable that holds no objects, or neither. */
  datatype SectionValue = Items(items: seq<Item>) | Keyed | Scalar

  datatype Section =
    | ExecutiveSummary | KeyFindings | RootCauses | DelayAnalysis | ContractualImplications | RecommendedActions

  const SECTIONS :=
    [ExecutiveSummary, KeyFindings, RootCauses, DelayAnalysis, ContractualImplications, RecommendedActions]

  datatype SourceEntry = SourceEntry(sourceId: string, title: string, reference: string)

  datatype Report = Report(
    sections: map<Section, SectionValue>, snapshot: Snapshot, sources: seq<SourceEntry>, answer: Answer)
  {
    /** The objects of a section; a missing section reads as an empty list. */
    function Claims(section: Section): seq<Item> {
      if section in sections && sections[section].Items? then sections[section].items else []
    }
  }

  function FlattenElems(elems: seq<RawId>): seq<string> {
    if elems == [] then []
    else
      (match elems[0]
       case Id(e) => [e]
       case Group(es) => es
       case NullId => [])
      + FlattenElems(elems[1..])
  }

  function Flatten(raw: RawIds): seq<string> {
    match raw
    case Bare(e) => if e == "" then [] else [e]
    case Many(elems) => FlattenElems(elems)
  }

  function FlatIds(ids: seq<string>): (r: seq<RawId>)
    ensures |r| == |ids| && forall i :: 0 <= i < |r| ==> r[i] == Id(ids[i])
  {
    seq(|ids|, i requires 0 <= i < |ids| => Id(ids[i]))
  }

  function Citing(ids: seq<string>): Item {
    Claim(Genuine, Many(FlatIds(ids)))
  }

  /** A claim that cites what a figure cites: a string, or a list as it stands. */
  function CitingRef(ref: Ref): Item {
    match ref
    case NoRef => Citing([])
    case One(id) => Citing([id])
    case Several(ids) => Claim(Genuine, Many([Group(ids)]))
  }

  /** Order-preserving removal of repetitions. */
  function Distinct(ids: seq<string>): seq<string> {
    if ids == [] then []
    else
      var before := Distinct(ids[..|ids| - 1]);
      if ids[|ids| - 1] in before then before else before + [ids[|ids| - 1]]
  }

  // ---------------------------------------------------------------------------------------------
  // Sorted citations
  // ---------------------------------------------------------------------------------------------

  predicate Less(a: string, b: string) {
    b != "" && (a == "" || a[0] < b[0] || (a[0] == b[0] && Less(a[1..], b[1..])))
  }

  function InsertUnique(x: string, sorted: seq<string>): seq<string> {
    if sorted == [] then [x]
    else if x == sorted[0] then sorted
    else if Less(x, sorted[0]) then [x] + sorted
    else [sorted[0]] + InsertUnique(x, sorted[1..])
  }

  function SortIds(ids: seq<string>): seq<string> {
    if ids == [] then [] else InsertUnique(ids[0], SortIds(ids[1..]))
  }

  function CitedIn(items: seq<Item>): seq<string> {
    if items == [] then []
    else CitedIn(items[..|items| - 1])
         + (if items[|items| - 1].Claim? then Flatten(items[|items| - 1].ids) else [])
  }

  /** Every id cited by a claim of the given sections. */
  function CitedBy(r: Report, sections: seq<Section>): seq<string> {
    if sections == [] then [] else CitedBy(r, sections[..|sections| - 1]) + CitedIn(r.Claims(sections[|sections| - 1]))
  }

  /** The evidence with a given id; the last one when ids repeat. */
  function EvidenceById(pack: seq<Evidence>, id: string): Option<Evidence> {
    if pack == [] then None
    else if pack[|pack| - 1].id == id then Some(pack[|pack| - 1])
    else EvidenceById(pack[..|pack| - 1], id)
  }

  function EntriesFor(sorted: seq<string>, pack: seq<Evidence>): seq<SourceEntry> {
    if sorted == [] then []
    else
      (match EvidenceById(pack, sorted[0])
       case Some(e) => [SourceEntry(sorted[0], e.title, e.uri)]
       case None => [])
      + EntriesFor(sorted[1..], pack)
  }

  /** A figure's id as a string; the printed form of a list is no evidence id. */
  function NodeId(s: Snapshot, fig: Fig): seq<string> {
    if s.At(fig).eid.One? then s.At(fig).eid.Ids() else []
  }

  /** The actual cost's id as the remap reads it: "" when the node has none. */
  function ActualCostId(s: Snapshot): seq<string> {
    if ActualCost in s.nodes then [if s.At(ActualCost).eid.One? then s.At(ActualCost).eid.id else ""] else []
  }

  /** A list under the actual cost's id, which cannot be added to a set. */
  predicate ListsActualCost(s: Snapshot) {
    s.At(ActualCost).eid.Several? && s.At(ActualCost).eid.ids != []
  }

  /** The sources after a remap: the evidence cited by a claim or by the actual cost. */
  function SourcesOfRemap(r: Report, pack: seq<Evidence>): seq<SourceEntry> {
    EntriesFor(SortIds(CitedBy(r, SECTIONS) + ActualCostId(r.snapshot)), pack)
  }

  /** What a financial report cites: also with the snapshot's figures and variance. */
  function FinancialCitations(r: Report): seq<string> {
    CitedBy(r, SECTIONS)
    + NodeId(r.snapshot, ContractValue) + NodeId(r.snapshot, Estimate)
    + NodeId(r.snapshot, ActualCost) + NodeId(r.snapshot, CommittedCost)
    + (if r.snapshot.variance.Some? then r.snapshot.variance.value.eids else [])
  }

  function SourcesOfFinancial(r: Report, pack: seq<Evidence>): seq<SourceEntry> {
    EntriesFor(SortIds(FinancialCitations(r)), pack)
  }

  // ---------------------------------------------------------------------------------------------
  // Remapping
  // ---------------------------------------------------------------------------------------------

  /** Normalised titles to ids; the last evidence with a title wins. `norm` strips and lower-cases. */
  function ByTitle(norm: string -> string, pack: seq<Evidence>): map<string, string> {
    if pack == [] then map[]
    else
      var before := ByTitle(norm, pack[..|pack| - 1]);
      var e := pack[|pack| - 1];
      if e.id != "" && norm(e.title) != "" then before[norm(e.title) := e.id] else before
  }

  function ByUri(norm: string -> string, pack: seq<Evidence>): map<string, string> {
    if pack == [] then map[]
    else
      var before := ByUri(norm, pack[..|pack| - 1]);
      var e := pack[|pack| - 1];
      if e.id != "" && norm(e.uri) != "" then before[norm(e.uri) := e.id] else before
  }

  /** The evidence id a source entry stands for, by title first and then by reference. */
  function RealId(norm: string -> string, entry: SourceEntry, pack: seq<Evidence>): Option<string> {
    var title, uri := norm(entry.title), norm(entry.reference);
    if title != "" && title in ByTitle(norm, pack) then Some(ByTitle(norm, pack)[title])
    else if uri != "" && uri in ByUri(norm, pack) then Some(ByUri(norm, pack)[uri])
    else None
  }

  /** The invented source ids, and the evidence ids they are replaced by. */
  function Synthetic(norm: string -> string, sources: seq<SourceEntry>, pack: seq<Evidence>): map<string, string> {
    if sources == [] then map[]
    else
      var before := Synthetic(norm, sources[..|sources| - 1], pack);
      var entry := sources[|sources| - 1];
      var target := RealId(norm, entry, pack);
      if target.Some? && entry.sourceId != "" && entry.sourceId != target.value
          then before[entry.sourceId := target.value]
      else before
  }

  function Resolve(synth: map<string, string>, id: string): string {
    if id in synth then synth[id] else id
  }

  function ResolveAll(synth: map<string, string>, ids: seq<string>): (r: seq<string>)
    ensures |r| == |ids| && forall i :: 0 <= i < |r| ==> r[i] == Resolve(synth, ids[i])
  {
    seq(|ids|, i requires 0 <= i < |ids| => Resolve(synth, ids[i]))
  }

  function RemapItem(synth: map<string, string>, item: Item): Item {
    if item.Other? || Flatten(item.ids) == [] then item
    else item.(ids := Many(FlatIds(ResolveAll(synth, Flatten(item.ids)))))
  }

  function RemapItems(synth: map<string, string>, items: seq<Item>): (r: seq<Item>)
    ensures |r| == |items| && forall i :: 0 <= i < |r| ==> r[i] == RemapItem(synth, items[i])
  {
    seq(|items|, i requires 0 <= i < |items| => RemapItem(synth, items[i]))
  }

  function RemapSection(synth: map<string, string>, v: SectionValue): SectionValue {
    if v.Items? then Items(RemapItems(synth, v.items)) else v
  }

  function RemapSections(synth: map<string, string>, r: Report): Report {
    r.(sections := map s | s in r.sections :: RemapSection(synth, r.sections[s]))
  }

  /** `None` when the remap raises: it rewrites something, and meets a section it cannot iterate or a listed cost id. */
  function Remap(norm: string -> string, r: Report, pack: seq<Evidence>): Option<Report> {
    var synth := Synthetic(norm, r.sources, pack);
    if synth == map[] then Some(r)
    else if (exists s :: s in r.sections && r.sections[s].Scalar?) || ListsActualCost(r.snapshot) then None
    else
      var remapped := RemapSections(synth, r);
      Some(remapped.(sources := SourcesOfRemap(remapped, pack)))
  }
}
