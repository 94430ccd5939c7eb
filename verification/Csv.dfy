/**
  The audit-log CSV export (apps/edr/app.py) and a reader for it: quoted fields as in section 2 of
  RFC 4180, with records ended by a bare line feed as the exporter writes them.
*/
module Csv {
  import opened Wrappers

  // ---------------------------------------------------------------------------------------------
  // The writer
  // ---------------------------------------------------------------------------------------------

  predicate NeedsQuotes(value: string) {
    ',' in value || '"' in value || '\n' in value
  }

  /** `value.replace('"', '""')`. */
  function DoubleQuotes(value: string): string {
    if value == "" then ""
    else (if value[0] == '"' then "\"\"" else [value[0]]) + DoubleQuotes(value[1..])
  }

  function Escape(value: string): string {
    if NeedsQuotes(value) then "\"" + DoubleQuotes(value) + "\"" else value
  }

  function Join(sep: string, parts: seq<string>): string {
    if parts == [] then ""
    else if |parts| == 1 then parts[0]
    else Join(sep, parts[..|parts| - 1]) + sep + parts[|parts| - 1]
  }

  function EscapeAll(fields: seq<string>): (r: seq<string>)
    ensures |r| == |fields|
  {
    seq(|fields|, i requires 0 <= i < |fields| => Escape(fields[i]))
  }

  function LineOf(fields: seq<string>): string {
    Join(",", EscapeAll(fields))
  }

  function LinesOf(table: seq<seq<string>>): (r: seq<string>)
    ensures |r| == |table|
  {
    seq(|table|, i requires 0 <= i < |table| => LineOf(table[i]))
  }

  function Export(table: seq<seq<string>>): string {
    Join("\n", LinesOf(table)) + "\n"
  }

  const HEADER := ["event_id", "event_type", "ts", "user_id_hash", "project_code", "service", "detail"]

  /** The export handler: the header line, then one line per event, joined and closed by a line feed. */
  method ExportAuditCsv(rows: seq<seq<string>>) returns (text: string)
    requires forall i :: 0 <= i < |rows| ==> |rows[i]| == 7
    ensures text == Export([HEADER] + rows)
  {
    var lines := [Join(",", HEADER)];
    HeaderLine();
    for i := 0 to |rows|
      invariant lines == LinesOf([HEADER] + rows[..i])
    {
      var cells: seq<string> := [];
      for j := 0 to |rows[i]|
        invariant cells == EscapeAll(rows[i][..j])
      {
        cells := cells + [Escape(rows[i][j])];
        assert rows[i][..j + 1][..j] == rows[i][..j];
      }
      assert rows[i][..|rows[i]|] == rows[i];
      lines := lines + [Join(",", cells)];
      assert [HEADER] + rows[..i + 1] == [HEADER] + rows[..i] + [rows[i]];
    }
    assert rows[..|rows|] == rows;
    text := Join("\n", lines) + "\n";
  }

  predicate PlainChar(c: char) {
    c != ',' && c != '"' && c != '\n'
  }

  lemma PlainNeedsNoQuotes(value: string)
    requires forall i :: 0 <= i < |value| ==> PlainChar(value[i])
    ensures Escape(value) == value
  {}

  /** The column names need no quoting, so the literal header is the header row's own line. */
  lemma HeaderLine()
    ensures LineOf(HEADER) == Join(",", HEADER)
  {
    forall i | 0 <= i < |HEADER|
      ensures Escape(HEADER[i]) == HEADER[i]
    {
      PlainNeedsNoQuotes(HEADER[i]);
    }
    EscapeAllPlain(HEADER);
  }

  lemma EscapeAllPlain(fields: seq<string>)
    requires forall i :: 0 <= i < |fields| ==> Escape(fields[i]) == fields[i]
    ensures EscapeAll(fields) == fields
  {}

  // ---------------------------------------------------------------------------------------------
  // The reader
  // ---------------------------------------------------------------------------------------------

  datatype Mode = FieldStart | Bare | Quoted | QuoteSeen

  /** What the reader has collected: complete records, the fields of the current one, the current field. */
  datatype Reading = Reading(records: seq<seq<string>>, fields: seq<string>, field: string)
  {
    function EndField(): Reading { Reading(records, fields + [field], "") }
    function EndRecord(): Reading { Reading(records + [fields + [field]], [], "") }
    function Take(c: char): Reading { Reading(records, fields, field + [c]) }
  }

  /** `None` when the text is not well formed. */
  function ReadFrom(text: string, mode: Mode, r: Reading): Option<seq<seq<string>>>
    decreases |text|
  {
    if text == "" then
      if mode == Quoted then None
      else if mode == FieldStart && r.fields == [] then Some(r.records)
      else Some(r.EndRecord().records)
    else
      var c, rest := text[0], text[1..];
      match mode
      case Quoted =>
        if c == '"' then ReadFrom(rest, QuoteSeen, r) else ReadFrom(rest, Quoted, r.Take(c))
      case _ =>
        if c == ',' then ReadFrom(rest, FieldStart, r.EndField())
        else if c == '\n' then ReadFrom(rest, FieldStart, r.EndRecord())
        else if mode == QuoteSeen then
          if c == '"' then ReadFrom(rest, Quoted, r.Take('"')) else None
        else if c == '"' then
          if mode == FieldStart then ReadFrom(rest, Quoted, r) else None
        else ReadFrom(rest, Bare, r.Take(c))
  }

  function ReadCsv(text: string): Option<seq<seq<string>>> {
    ReadFrom(text, FieldStart, Reading([], [], ""))
  }

  // ---------------------------------------------------------------------------------------------
  // Round trip
  // ---------------------------------------------------------------------------------------------

  predicate StartsWithEnd(rest: string) {
    rest != "" && (rest[0] == ',' || rest[0] == '\n')
  }

  function AfterEnd(rest: string, r: Reading): Reading
    requires StartsWithEnd(rest)
  {
    if rest[0] == ',' then r.EndField() else r.EndRecord()
  }

  lemma {:induction false} BareField(value: string, rest: string, mode: Mode, r: Reading)
    requires mode == FieldStart || mode == Bare
    requires !NeedsQuotes(value) && StartsWithEnd(rest)
    ensures ReadFrom(value + rest, mode, r)
         == ReadFrom(rest[1..], FieldStart, AfterEnd(rest, r.(field := r.field + value)))
    decreases |value|
  {
    if value == "" {
      assert value + rest == rest;
      assert r.field + value == r.field;
    } else {
      var c, tail := value[0], value[1..];
      assert (value + rest)[0] == c && (value + rest)[1..] == tail + rest;
      BareField(tail, rest, Bare, r.Take(c));
      assert r.field + [c] + tail == r.field + value;
    }
  }

  lemma {:induction false} QuotedField(value: string, rest: string, r: Reading)
    requires StartsWithEnd(rest)
    ensures ReadFrom(DoubleQuotes(value) + "\"" + rest, Quoted, r)
         == ReadFrom(rest[1..], FieldStart, AfterEnd(rest, r.(field := r.field + value)))
    decreases |value|
  {
    var text := DoubleQuotes(value) + "\"" + rest;
    if value == "" {
      assert text[0] == '"' && text[1..] == rest;
      assert r.field + value == r.field;
    } else {
      var c, tail := value[0], value[1..];
      var after := DoubleQuotes(tail) + "\"" + rest;
      QuotedField(tail, rest, r.Take(c));
      assert r.field + [c] + tail == r.field + value;
      if c == '"' {
        assert text[0] == '"' && text[1..][0] == '"' && text[1..][1..] == after;
      } else {
        assert text[0] == c && text[1..] == after;
      }
    }
  }

  lemma OpeningQuote(text: string, r: Reading)
    requires text != "" && text[0] == '"'
    ensures ReadFrom(text, FieldStart, r) == ReadFrom(text[1..], Quoted, r)
  {}

  lemma EscapedText(value: string, rest: string)
    requires NeedsQuotes(value)
    ensures
      var text := Escape(value) + rest;
      text != "" && text[0] == '"' && text[1..] == DoubleQuotes(value) + "\"" + rest
  {
    AfterFirst('"', DoubleQuotes(value) + "\"" + rest);
    assert Escape(value) + rest == ['"'] + (DoubleQuotes(value) + "\"" + rest);
  }

  lemma AfterFirst(c: char, rest: string)
    ensures ([c] + rest)[0] == c && ([c] + rest)[1..] == rest
  {}

  /** Whatever a field contains, the reader takes it back whole and stops at its separator. */
  lemma FieldRoundTrip(value: string, rest: string, r: Reading)
    requires r.field == "" && StartsWithEnd(rest)
    ensures ReadFrom(Escape(value) + rest, FieldStart, r)
         == ReadFrom(rest[1..], FieldStart, AfterEnd(rest, r.(field := value)))
  {
    assert r.(field := r.field + value) == r.(field := value);
    if NeedsQuotes(value) {
      EscapedText(value, rest);
      OpeningQuote(Escape(value) + rest, r);
      QuotedField(value, rest, r);
    } else {
      BareField(value, rest, FieldStart, r);
    }
  }

  lemma LineOfMore(fields: seq<string>, rest: string)
    requires |fields| > 1
    ensures
      var n := |fields| - 1;
      LineOf(fields) + rest == LineOf(fields[..n]) + ("," + Escape(fields[n]) + rest)
  {
    var n := |fields| - 1;
    assert EscapeAll(fields)[..n] == EscapeAll(fields[..n]);
    assert LineOf(fields) == LineOf(fields[..n]) + "," + Escape(fields[n]);
  }

  /** The fields before the last, each followed by a comma. */
  lemma {:induction false} FieldsRoundTrip(fields: seq<string>, rest: string, records: seq<seq<string>>)
    requires fields != [] && StartsWithEnd(rest)
    ensures ReadFrom(LineOf(fields) + rest, FieldStart, Reading(records, [], ""))
         == ReadFrom(rest[1..], FieldStart,
                     AfterEnd(rest, Reading(records, fields[..|fields| - 1], fields[|fields| - 1])))
    decreases |fields|
  {
    var n := |fields| - 1;
    var last := fields[n];
    if n == 0 {
      assert LineOf(fields) == Escape(last);
      FieldRoundTrip(last, rest, Reading(records, [], ""));
      assert fields[..0] == [];
    } else {
      var front := fields[..n];
      var tail := "," + Escape(last) + rest;
      LineOfMore(fields, rest);
      FieldsRoundTrip(front, tail, records);
      assert tail[1..] == Escape(last) + rest;
      assert front[..n - 1] + [front[n - 1]] == front;
      FieldRoundTrip(last, rest, Reading(records, front, ""));
    }
  }

  lemma RecordRoundTrip(fields: seq<string>, rest: string, records: seq<seq<string>>)
    requires fields != []
    ensures ReadFrom(LineOf(fields) + "\n" + rest, FieldStart, Reading(records, [], ""))
         == ReadFrom(rest, FieldStart, Reading(records + [fields], [], ""))
  {
    var end := "\n" + rest;
    assert LineOf(fields) + "\n" + rest == LineOf(fields) + end;
    FieldsRoundTrip(fields, end, records);
    assert end[1..] == rest;
    assert fields[..|fields| - 1] + [fields[|fields| - 1]] == fields;
  }

  lemma {:induction false} RecordsRoundTrip(table: seq<seq<string>>, rest: string)
    requires table != [] && forall i :: 0 <= i < |table| ==> table[i] != []
    ensures ReadFrom(Export(table) + rest, FieldStart, Reading([], [], ""))
         == ReadFrom(rest, FieldStart, Reading(table, [], ""))
    decreases |table|
  {
    var n := |table| - 1;
    var last := table[n];
    if n == 0 {
      assert Export(table) + rest == LineOf(last) + "\n" + rest;
      RecordRoundTrip(last, rest, []);
      assert [] + [last] == table;
    } else {
      var front := table[..n];
      assert LinesOf(table)[..n] == LinesOf(front);
      var tail := LineOf(last) + "\n" + rest;
      assert Export(table) + rest == Export(front) + tail;
      RecordsRoundTrip(front, tail);
      RecordRoundTrip(last, rest, front);
      assert front + [last] == table;
    }
  }

  /** Reading an export gives back exactly the table, whatever commas, quotes or newlines its fields hold. */
  lemma CsvRoundTrip(table: seq<seq<string>>)
    requires table != [] && forall i :: 0 <= i < |table| ==> table[i] != []
    ensures ReadCsv(Export(table)) == Some(table)
  {
    RecordsRoundTrip(table, "");
    assert Export(table) + "" == Export(table);
  }

  /** No two tables export to the same text. */
  lemma ExportIsInjective(a: seq<seq<string>>, b: seq<seq<string>>)
    requires a != [] && forall i :: 0 <= i < |a| ==> a[i] != []
    requires b != [] && forall i :: 0 <= i < |b| ==> b[i] != []
    requires Export(a) == Export(b)
    ensures a == b
  {
    CsvRoundTrip(a);
    CsvRoundTrip(b);
  }
}
