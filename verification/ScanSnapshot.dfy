/** The JSON form of a scan session: what is persisted, and what a restarted worker reads back. */
module ScanSnapshot {
  import opened Wrappers
  import opened OdooScan
  import opened ScanSession

  /** The field names of the two records and of the progress object. */
  datatype Name =
    | NKey | NStatus | NCount | NTotal | NCapped | NComplete | NError | NDurationMs | NLastScannedAt
    | NPagesDone | NNextOffset
    | NSessionId | NProjectCode | NState | NStartedAt | NUpdatedAt | NFinishedAt | NSummary | NCountSupported
    | NScannedAt
    | NProgress | NSources | NBucket(status: Status) | NDone

  /** JSON values; objects with fixed field names and objects keyed by source are kept apart. */
  datatype Json =
    | JNull | JBool(flag: bool) | JInt(number: int) | JStr(text: string)
    | JObj(fields: map<Name, Json>) | JTable(entries: map<string, Json>)

  // ---------------------------------------------------------------------------------------------
  // Vocabulary
  // ---------------------------------------------------------------------------------------------

  function StatusName(s: Status): string {
    match s
    case Pending => "pending"
    case Running => "running"
    case Completed => "completed"
    case Partial => "partial"
    case Capped => "capped"
    case Empty => "empty"
    case Failed => "failed"
    case Timeout => "timeout"
    case Unmapped => "unmapped"
    case NotScanned => "not_scanned"
  }

  function StatusNamed(name: string): Status {
    if name == "pending" then Pending
    else if name == "running" then Running
    else if name == "completed" then Completed
    else if name == "partial" then Partial
    else if name == "capped" then Capped
    else if name == "empty" then Empty
    else if name == "failed" then Failed
    else if name == "timeout" then Timeout
    else if name == "unmapped" then Unmapped
    else if name == "not_scanned" then NotScanned
    else Pending
  }

  function StateName(s: SessionState): string {
    match s
    case SPending => "pending"
    case SRunning => "running"
    case SCompleted => "completed"
    case SPartial => "partial"
    case SFailed => "failed"
  }

  function StateNamed(name: string): SessionState {
    if name == "pending" then SPending
    else if name == "running" then SRunning
    else if name == "completed" then SCompleted
    else if name == "partial" then SPartial
    else if name == "failed" then SFailed
    else SPending
  }

  // ---------------------------------------------------------------------------------------------
  // Reading fields with the defaults of the record
  // ---------------------------------------------------------------------------------------------

  function StrField(d: map<Name, Json>, name: Name, default: string): string {
    if name in d && d[name].JStr? then d[name].text else default
  }

  function OptStrField(d: map<Name, Json>, name: Name): Option<string> {
    if name in d && d[name].JStr? then Some(d[name].text) else None
  }

  function OptIntField(d: map<Name, Json>, name: Name): Option<int> {
    if name in d && d[name].JInt? then Some(d[name].number) else None
  }

  function OptBoolField(d: map<Name, Json>, name: Name): Option<bool> {
    if name in d && d[name].JBool? then Some(d[name].flag) else None
  }

  function BoolField(d: map<Name, Json>, name: Name): bool {
    name in d && d[name].JBool? && d[name].flag
  }

  function NatField(d: map<Name, Json>, name: Name): nat {
    if name in d && d[name].JInt? && d[name].number >= 0 then d[name].number else 0
  }

  function OfOptStr(s: Option<string>): Json { if s.Some? then JStr(s.value) else JNull }
  function OfOptInt(n: Option<int>): Json { if n.Some? then JInt(n.value) else JNull }
  function OfOptBool(b: Option<bool>): Json { if b.Some? then JBool(b.value) else JNull }

  // ---------------------------------------------------------------------------------------------
  // One record
  // ---------------------------------------------------------------------------------------------

  function ToDict(st: SourceScanState): Json {
    JObj(map[
      NKey := JStr(st.key),
      NStatus := JStr(StatusName(st.status)),
      NCount := OfOptInt(st.count),
      NTotal := OfOptInt(st.total),
      NCapped := JBool(st.capped),
      NComplete := JBool(st.complete),
      NError := OfOptStr(st.error),
      NDurationMs := (if st.durationMs.Some? then JInt(st.durationMs.value) else JNull),
      NLastScannedAt := OfOptStr(st.lastScannedAt),
      NPagesDone := JInt(st.pagesDone),
      NNextOffset := JInt(st.nextOffset)])
  }

  /** Unknown fields are dropped, missing ones take their default, and `key` is required. */
  function FromDict(j: Json): Option<SourceScanState> {
    if !j.JObj? || NKey !in j.fields then None
    else
      var d := j.fields;
      var duration := OptIntField(d, NDurationMs);
      Some(SourceScanState(
        StrField(d, NKey, ""),
        StatusNamed(StrField(d, NStatus, "pending")),
        OptIntField(d, NCount),
        OptIntField(d, NTotal),
        BoolField(d, NCapped),
        BoolField(d, NComplete),
        OptStrField(d, NError),
        if duration.Some? && duration.value >= 0 then Some(duration.value) else None,
        OptStrField(d, NLastScannedAt),
        NatField(d, NPagesDone),
        NatField(d, NNextOffset)))
  }

  lemma StatusRoundTrip(s: Status)
    ensures StatusNamed(StatusName(s)) == s
  {}

  lemma StateRoundTrip(s: SessionState)
    ensures StateNamed(StateName(s)) == s
  {}

  /** The texts and flags of a record as its dictionary holds them. */
  lemma RecordTexts(st: SourceScanState)
    ensures
      var d := ToDict(st).fields;
      && NKey in d && StrField(d, NKey, "") == st.key
      && StatusNamed(StrField(d, NStatus, "pending")) == st.status
      && BoolField(d, NCapped) == st.capped && BoolField(d, NComplete) == st.complete
      && OptStrField(d, NError) == st.error && OptStrField(d, NLastScannedAt) == st.lastScannedAt
  {
    StatusRoundTrip(st.status);
  }

  /** And its numbers. */
  lemma RecordNumbers(st: SourceScanState)
    ensures
      var d := ToDict(st).fields;
      && OptIntField(d, NCount) == st.count && OptIntField(d, NTotal) == st.total
      && OptIntField(d, NDurationMs) == (if st.durationMs.Some? then Some(st.durationMs.value as int) else None)
      && NatField(d, NPagesDone) == st.pagesDone && NatField(d, NNextOffset) == st.nextOffset
  {}

  lemma RecordRoundTrip(st: SourceScanState)
    ensures FromDict(ToDict(st)) == Some(st)
  {
    RecordTexts(st);
    RecordNumbers(st);
  }

  // ---------------------------------------------------------------------------------------------
  // The session
  // ---------------------------------------------------------------------------------------------

  function ProgressOf(sources: map<string, SourceScanState>): Json {
    var buckets := {Pending, Running, Completed, Partial, Capped, Empty, Failed, Timeout, Unmapped};
    JObj((map b <- buckets :: NBucket(b) := JInt(CountWith(sources, b)))
         + map[NTotal := JInt(|sources|), NDone := JInt(DoneCount(sources))])
  }

  /** The object's fields, given the encoded state, progress and sources. */
  function Fields(v: Session, state: string, progress: Json, sources: Json): map<Name, Json> {
    map[
      NSessionId := JStr(v.sessionId),
      NProjectCode := JStr(v.projectCode),
      NState := JStr(state),
      NStartedAt := JStr(v.startedAt),
      NUpdatedAt := JStr(v.updatedAt),
      NFinishedAt := OfOptStr(v.finishedAt),
      NSummary := JStr(v.summary),
      NCountSupported := OfOptBool(v.countSupported),
      NScannedAt := (if v.updatedAt != "" then JStr(v.updatedAt) else OfOptStr(v.finishedAt)),
      NProgress := progress,
      NSources := sources]
  }

  function Snapshot(v: Session): Json {
    JObj(Fields(v, StateName(v.state), ProgressOf(v.sources), EncodeTable(ToDict, v.sources)))
  }

  function EncodeTable<A>(encode: A -> Json, m: map<string, A>): Json {
    JTable(map k | k in m :: encode(m[k]))
  }

  /** A missing table reads as empty; one undecodable entry makes the whole table undecodable. */
  function DecodeTable<A>(decode: Json -> Option<A>, j: Json): Option<map<string, A>> {
    if j.JNull? then Some(map[])
    else if !j.JTable? || exists k :: k in j.entries && decode(j.entries[k]).None? then None
    else Some(map k | k in j.entries :: decode(j.entries[k]).value)
  }

  lemma TableRoundTrip<A>(encode: A -> Json, decode: Json -> Option<A>, m: map<string, A>)
    requires forall k :: k in m ==> decode(encode(m[k])) == Some(m[k])
    ensures DecodeTable(decode, EncodeTable(encode, m)) == Some(m)
  {
    assert DecodeTable(decode, EncodeTable(encode, m)).value == m;
  }

  /** The session read back, given its decoded state and sources. */
  function OfFields(d: map<Name, Json>, state: SessionState, sources: map<string, SourceScanState>): Session {
    Session(
      StrField(d, NSessionId, ""),
      StrField(d, NProjectCode, ""),
      state,
      sources,
      StrField(d, NStartedAt, ""),
      StrField(d, NUpdatedAt, ""),
      OptStrField(d, NFinishedAt),
      StrField(d, NSummary, ""),
      OptBoolField(d, NCountSupported))
  }

  function FromSnapshot(snap: Json): Option<Session> {
    if !snap.JObj? then None
    else
      var d := snap.fields;
      var sources := DecodeTable(FromDict, if NSources in d then d[NSources] else JNull);
      if sources.None? then None
      else Some(OfFields(d, StateNamed(StrField(d, NState, "pending")), sources.value))
  }

  lemma FieldsRoundTrip(v: Session, state: string, progress: Json, sources: Json)
    ensures
      var d := Fields(v, state, progress, sources);
      && NSources in d && d[NSources] == sources && StrField(d, NState, "pending") == state
      && OfFields(d, v.state, v.sources) == v
  {}

  lemma SourcesRoundTrip(sources: map<string, SourceScanState>)
    ensures DecodeTable(FromDict, EncodeTable(ToDict, sources)) == Some(sources)
  {
    forall k | k in sources
      ensures FromDict(ToDict(sources[k])) == Some(sources[k])
    {
      RecordRoundTrip(sources[k]);
    }
    TableRoundTrip(ToDict, FromDict, sources);
  }

  /** Persisting and restoring a session loses nothing, for any sources and any cursor values. */
  lemma SnapshotRoundTrip(v: Session)
    ensures FromSnapshot(Snapshot(v)) == Some(v)
  {
    SourcesRoundTrip(v.sources);
    StateRoundTrip(v.state);
    FieldsRoundTrip(v, StateName(v.state), ProgressOf(v.sources), EncodeTable(ToDict, v.sources));
  }
}
