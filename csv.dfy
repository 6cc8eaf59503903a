/**
 * The comma-separated text the admin pages export, and a reader for it in the
 * style of section 2 of RFC 4180 (records separated by line feeds, fields by
 * commas, a field in double quotes may hold commas, line feeds and doubled
 * quotes). The reader is the partner of the exporters: reading an export back
 * gives the values that were written.
 */
module Csv {
  import opened Text

  /** What an export button produces: an alert and no file, or a file to download. */
  datatype Export = NoFile(alert: string) | File(name: string, text: string)

  /** One field as written: raw text, or wrapped in quotes with inner quotes doubled. */
  datatype Cell = Plain(text: string) | Quoted(text: string)

  /** `s.replace(/"/g, '""')`: every quote doubled, every other character kept. */
  function Escape(s: string): (r: string)
    ensures |r| == |s| + Quotes(s)
    ensures Quotes(s) == 0 ==> r == s
  {
    if s == [] then []
    else if s[0] == '"' then "\"\"" + Escape(s[1..])
    else [s[0]] + Escape(s[1..])
  }

  /** The number of double quotes in `s`. */
  function Quotes(s: string): nat {
    if s == [] then 0 else (if s[0] == '"' then 1 else 0) + Quotes(s[1..])
  }

  function RenderCell(c: Cell): string {
    match c
    case Plain(t) => t
    case Quoted(t) => "\"" + Escape(t) + "\""
  }

  function RenderCells(cells: seq<Cell>): (r: seq<string>)
    ensures |r| == |cells|
  {
    if cells == [] then [] else [RenderCell(cells[0])] + RenderCells(cells[1..])
  }

  /** `row.join(",")`. */
  function RenderRow(cells: seq<Cell>): string {
    JoinWith(RenderCells(cells), ',')
  }

  function RenderRows(rows: seq<seq<Cell>>): (r: seq<string>)
    ensures |r| == |rows|
  {
    if rows == [] then [] else [RenderRow(rows[0])] + RenderRows(rows[1..])
  }

  /** `lines.join("\n")` over the rendered rows. */
  function RenderTable(rows: seq<seq<Cell>>): string {
    JoinWith(RenderRows(rows), '\n')
  }

  /** The values a reader should recover from a line of cells. */
  function Texts(cells: seq<Cell>): (r: seq<string>)
    ensures |r| == |cells| && forall j :: 0 <= j < |cells| ==> r[j] == cells[j].text
  {
    seq(|cells|, j requires 0 <= j < |cells| => cells[j].text)
  }

  /** The values a reader should recover from each line. */
  function Values(rows: seq<seq<Cell>>): (r: seq<seq<string>>)
    ensures |r| == |rows| && forall i :: 0 <= i < |rows| ==> r[i] == Texts(rows[i])
  {
    seq(|rows|, i requires 0 <= i < |rows| => Texts(rows[i]))
  }

  /** Text that can stand unquoted: no comma, quote or line feed. */
  predicate PlainSafe(t: string) {
    forall i :: 0 <= i < |t| ==> t[i] != ',' && t[i] != '"' && t[i] != '\n'
  }

  predicate CellReadable(c: Cell) {
    c.Plain? ==> PlainSafe(c.text)
  }

  /** A line whose rendering is unambiguous: not empty, safe unquoted cells. */
  predicate RowReadable(cells: seq<Cell>) {
    |cells| > 0 && forall j :: 0 <= j < |cells| ==> CellReadable(cells[j])
  }

  /** A table whose rendering is unambiguous: at least one line, each readable. */
  predicate Readable(rows: seq<seq<Cell>>) {
    |rows| > 0 && forall i :: 0 <= i < |rows| ==> RowReadable(rows[i])
  }

  // ---------------------------------------------------------------- reader

  /** `rest` is the end of the text, or starts with the separator that ended a field. */
  predicate AtFieldEnd(rest: string) {
    rest == [] || rest[0] == ',' || rest[0] == '\n'
  }

  /** Unquoted characters up to the next comma or line feed. */
  function ParsePlain(t: string): (res: (string, string))
    ensures |res.1| <= |t| && AtFieldEnd(res.1)
  {
    if t == [] || t[0] == ',' || t[0] == '\n' then ([], t)
    else
      var (v, rest) := ParsePlain(t[1..]);
      ([t[0]] + v, rest)
  }

  /** The inside of a quoted field: up to the lone closing quote; a doubled quote stands for one. */
  function ParseQuoted(t: string): (res: (string, string))
    ensures |res.1| <= |t|
  {
    if t == [] then ([], [])
    else if t[0] == '"' then
      if |t| > 1 && t[1] == '"' then
        var (v, rest) := ParseQuoted(t[2..]);
        (['"'] + v, rest)
      else ([], t[1..])
    else
      var (v, rest) := ParseQuoted(t[1..]);
      ([t[0]] + v, rest)
  }

  /** One field; text between a closing quote and the next separator is kept, as lenient readers do. */
  function ParseField(t: string): (res: (string, string))
    ensures |res.1| <= |t| && AtFieldEnd(res.1)
  {
    if t != [] && t[0] == '"' then
      var (q, rest) := ParseQuoted(t[1..]);
      var (p, rest') := ParsePlain(rest);
      (q + p, rest')
    else ParsePlain(t)
  }

  /** The fields of one record, up to the line feed that ends it (left in the rest). */
  function ParseRecord(t: string): (res: (seq<string>, string))
    ensures |res.1| <= |t| && (res.1 == [] || res.1[0] == '\n')
    decreases |t|
  {
    var (v, rest) := ParseField(t);
    if rest != [] && rest[0] == ',' then
      var (vs, rest') := ParseRecord(rest[1..]);
      ([v] + vs, rest')
    else ([v], rest)
  }

  /** All records of a text. */
  function ParseTable(t: string): seq<seq<string>>
    decreases |t|
  {
    var (record, rest) := ParseRecord(t);
    if rest == [] then [record] else [record] + ParseTable(rest[1..])
  }

  // ------------------------------------------------------ reading back

  lemma {:induction false} PlainReadsBack(s: string, d: string)
    requires PlainSafe(s) && AtFieldEnd(d)
    ensures ParsePlain(s + d) == (s, d)
  {
    if s == [] {
      assert s + d == d;
    } else {
      assert (s + d)[0] == s[0] && (s + d)[1..] == s[1..] + d;
      PlainReadsBack(s[1..], d);
      assert [s[0]] + s[1..] == s;
    }
  }

  lemma {:induction false} QuotedReadsBack(s: string, d: string)
    requires d == [] || d[0] != '"'
    ensures ParseQuoted(Escape(s) + "\"" + d) == (s, d)
  {
    var t := Escape(s) + "\"" + d;
    if s == [] {
      assert t == "\"" + d && t[1..] == d;
    } else if s[0] == '"' {
      assert t == "\"\"" + (Escape(s[1..]) + "\"" + d);
      assert t[2..] == Escape(s[1..]) + "\"" + d;
      QuotedReadsBack(s[1..], d);
      assert ['"'] + s[1..] == s;
    } else {
      assert t == [s[0]] + (Escape(s[1..]) + "\"" + d);
      assert t[0] == s[0] && t[1..] == Escape(s[1..]) + "\"" + d;
      QuotedReadsBack(s[1..], d);
      assert [s[0]] + s[1..] == s;
    }
  }

  /** A quoted field: the quoted part ends at the closing quote, and nothing follows before the separator. */
  lemma {:induction false} QuotedFieldReadsBack(s: string, d: string)
    requires AtFieldEnd(d)
    ensures ParseField(RenderCell(Quoted(s)) + d) == (s, d)
  {
    var u := Escape(s) + "\"" + d;
    var t := RenderCell(Quoted(s)) + d;
    assert t == ['"'] + u;
    assert t[0] == '"' && t[1..] == u;
    QuotedReadsBack(s, d);
    assert ParseQuoted(t[1..]) == (s, d);
    assert ParsePlain(d) == ([], d);
    assert s + [] == s;
  }

  lemma {:induction false} FieldReadsBack(c: Cell, d: string)
    requires CellReadable(c) && AtFieldEnd(d)
    ensures ParseField(RenderCell(c) + d) == (c.text, d)
  {
    match c
    case Plain(s) =>
      PlainReadsBack(s, d);
      if s == [] { assert s + d == d; }
    case Quoted(s) =>
      QuotedFieldReadsBack(s, d);
  }

  lemma {:induction false} RecordReadsBack(cells: seq<Cell>, d: string)
    requires |cells| > 0 && (forall j :: 0 <= j < |cells| ==> CellReadable(cells[j]))
    requires d == [] || d[0] == '\n'
    ensures ParseRecord(RenderRow(cells) + d) == (Texts(cells), d)
  {
    var texts := Texts(cells);
    var parts := RenderCells(cells);
    if |cells| == 1 {
      assert RenderRow(cells) == RenderCell(cells[0]);
      FieldReadsBack(cells[0], d);
      assert texts == [cells[0].text];
    } else {
      assert parts[1..] == RenderCells(cells[1..]);
      var tail := RenderRow(cells[1..]) + d;
      assert RenderRow(cells) + d == RenderCell(cells[0]) + ("," + tail);
      FieldReadsBack(cells[0], "," + tail);
      assert ("," + tail)[1..] == tail;
      RecordReadsBack(cells[1..], d);
      assert texts == [cells[0].text] + Texts(cells[1..]);
    }
  }

  /** A table of several lines is its first line, a line feed, and the rest. */
  lemma {:induction false} RenderTableCons(rows: seq<seq<Cell>>)
    requires |rows| > 1
    ensures RenderTable(rows) == RenderRow(rows[0]) + ("\n" + RenderTable(rows[1..]))
  {
    var lines := RenderRows(rows);
    assert lines[0] == RenderRow(rows[0]);
    assert lines[1..] == RenderRows(rows[1..]);
  }

  /** The values of a table of several lines are those of its first line, then the rest. */
  lemma {:induction false} ValuesCons(rows: seq<seq<Cell>>)
    requires |rows| > 0
    ensures Values(rows) == [Texts(rows[0])] + Values(rows[1..])
  {
  }

  /** Reading back an export gives exactly the values written, row by row. */
  lemma {:induction false} TableReadsBack(rows: seq<seq<Cell>>)
    requires Readable(rows)
    ensures ParseTable(RenderTable(rows)) == Values(rows)
  {
    ValuesCons(rows);
    if |rows| == 1 {
      RecordReadsBack(rows[0], []);
      assert RenderTable(rows) == RenderRow(rows[0]);
      assert RenderRow(rows[0]) + [] == RenderRow(rows[0]);
    } else {
      var tail := RenderTable(rows[1..]);
      RecordReadsBack(rows[0], "\n" + tail);
      RenderTableCons(rows);
      assert ("\n" + tail)[1..] == tail;
      assert Readable(rows[1..]);
      TableReadsBack(rows[1..]);
    }
  }

  /** An export: a header line followed by one line per record, read back value by value. */
  lemma {:induction false} HeaderAndLinesReadBack(header: seq<Cell>, lines: seq<seq<Cell>>)
    requires RowReadable(header)
    requires forall i :: 0 <= i < |lines| ==> RowReadable(lines[i])
    ensures |ParseTable(RenderTable([header] + lines))| == |lines| + 1
    ensures ParseTable(RenderTable([header] + lines))[0] == Texts(header)
    ensures forall i :: 0 <= i < |lines| ==> ParseTable(RenderTable([header] + lines))[i + 1] == Texts(lines[i])
  {
    var rows := [header] + lines;
    assert forall i :: 0 <= i < |lines| ==> rows[i + 1] == lines[i];
    TableReadsBack(rows);
  }

  /** A header line: every name written as it is. */
  function PlainRow(names: seq<string>): (r: seq<Cell>)
    ensures |r| == |names| && forall j :: 0 <= j < |r| ==> r[j] == Plain(names[j])
  {
    seq(|names|, j requires 0 <= j < |names| => Plain(names[j]))
  }

  /** Names free of separators make a readable line that reads back as those names. */
  lemma {:induction false} PlainRowReadable(names: seq<string>)
    requires names != []
    requires forall j :: 0 <= j < |names| ==> PlainSafe(names[j])
    ensures RowReadable(PlainRow(names))
    ensures Texts(PlainRow(names)) == names
  {
  }

  /** A number printed by `String(n)` can always stand unquoted. */
  lemma {:induction false} NumberIsPlainSafe(n: int)
    ensures PlainSafe(IntToString(n))
  {
  }
}
