/**
  The CSV text `handleExport` builds (src/app/page.tsx), and a reader for the
  format of section 2 of RFC 4180 used to state what that text means: reading
  the export back yields the header and one record per card, with every quoted
  field recovered exactly.
*/
module Csv {
  import opened Wrappers
  import opened Types
  import Strings

  // ----- Writing -----

  /** `s.replace(/"/g, '""')`: every quote doubled. */
  function DoubleQuotes(s: string): (r: string)
    ensures |r| >= |s|
  {
    if s == [] then []
    else (if s[0] == '"' then "\"\"" else [s[0]]) + DoubleQuotes(s[1..])
  }

  /** `"${s.replace(/"/g, '""')}"`: the field wrapped in quotes with inner quotes doubled
      (the quoting rule of section 2, rule 7, of RFC 4180). */
  function Escape(s: string): (r: string)
    ensures |r| >= |s| + 2
    ensures r[0] == '"' && r[|r| - 1] == '"'
  {
    "\"" + DoubleQuotes(s) + "\""
  }

  /** Characters a field written without quotes must not hold. */
  predicate Special(c: char) {
    c == ',' || c == '\n' || c == '"'
  }

  predicate PlainText(s: string) {
    forall i :: 0 <= i < |s| ==> !Special(s[i])
  }

  /** One element of a row array, as `join` renders it: text written as is, or a
      quoted field. */
  datatype Cell = Plain(text: string) | Quoted(text: string)

  predicate CellOk(c: Cell) {
    c.Plain? ==> PlainText(c.text)
  }

  function Render(c: Cell): string {
    match c
    case Plain(s) => s
    case Quoted(s) => Escape(s)
  }

  /** `parts.join(sep)`. */
  function Join(sep: string, parts: seq<string>): string
    decreases |parts|
  {
    if parts == [] then ""
    else if |parts| == 1 then parts[0]
    else parts[0] + sep + Join(sep, parts[1..])
  }

  function RenderAll(cells: seq<Cell>): seq<string> {
    seq(|cells|, i requires 0 <= i < |cells| => Render(cells[i]))
  }

  /** The text a reader recovers from each cell. */
  function Texts(cells: seq<Cell>): seq<string> {
    seq(|cells|, i requires 0 <= i < |cells| => cells[i].text)
  }

  /** `cells.join(',')`. */
  function Line(cells: seq<Cell>): string {
    Join(",", RenderAll(cells))
  }

  /** `headers`. */
  const Headers: seq<string> := ["id", "prompt", "result", "quality", "length", "latency_ms", "tokens"]

  function HeaderCells(): seq<Cell> {
    [Plain(Headers[0]), Plain(Headers[1]), Plain(Headers[2]), Plain(Headers[3]),
     Plain(Headers[4]), Plain(Headers[5]), Plain(Headers[6])]
  }

  /** How `join` renders an object: `String({...})`. */
  const ObjectText: string := "[object Object]"

  /** `x ?? ''` for an optional number. */
  function OptionalNumber(n: Option<int>): string {
    match n
    case Some(v) => Strings.IntText(v)
    case None => ""
  }

  /** The seven elements of one row of `handleExport`. */
  function RowCells(p: Prompt): seq<Cell> {
    var r := p.result;
    [ Plain(Strings.IntText(p.id)),
      Quoted(p.prompt),
      Quoted(if r.Some? then r.value.result else ""),
      Plain(if r.Some? && r.value.quality.Some? then ObjectText else ""),
      Plain(OptionalNumber(if r.Some? then Some(r.value.length) else None)),
      Plain(OptionalNumber(if r.Some? then Some(r.value.latency) else None)),
      Plain(OptionalNumber(if r.Some? then Some(r.value.tokenUsage) else None)) ]
  }

  function RowLines(ps: seq<Prompt>): (r: seq<string>)
    ensures |r| == |ps|
    ensures forall i :: 0 <= i < |ps| ==> r[i] == Line(RowCells(ps[i]))
  {
    if ps == [] then [] else [Line(RowCells(ps[0]))] + RowLines(ps[1..])
  }

  /** `csvContent`: the header line and one line per card, joined by `'\n'`. */
  function ExportCsv(ps: seq<Prompt>): string {
    Join("\n", [Line(HeaderCells())] + RowLines(ps))
  }

  /** The prompt field of a row, and the result field of a card without a result. */
  lemma RowFields(p: Prompt)
    ensures Render(RowCells(p)[1]) == Escape(p.prompt)
    ensures p.result.None? ==> Render(RowCells(p)[2]) == "\"\""
    ensures p.result.Some? ==> Render(RowCells(p)[2]) == Escape(p.result.value.result)
  {
  }

  // ----- Reading (section 2 of RFC 4180, with `'\n'` as the line break) -----

  /** A value read from the front of a text and the text left over. */
  datatype Scan<T> = Scan(value: T, rest: string)

  /** Reads the inside of a quoted field up to and including its closing quote. */
  function ReadQuoted(t: string): (r: Option<Scan<string>>)
    ensures r.Some? ==> |r.value.rest| < |t|
    decreases |t|
  {
    if t == [] then None
    else if t[0] == '"' then
      if |t| >= 2 && t[1] == '"' then
        match ReadQuoted(t[2..])
        case None => None
        case Some(sc) => Some(Scan("\"" + sc.value, sc.rest))
      else Some(Scan("", t[1..]))
    else
      match ReadQuoted(t[1..])
      case None => None
      case Some(sc) => Some(Scan([t[0]] + sc.value, sc.rest))
  }

  predicate AtFieldEnd(t: string) {
    t == [] || t[0] == ',' || t[0] == '\n'
  }

  /** Reads an unquoted field, which may not contain a quote. */
  function ReadPlain(t: string): (r: Option<Scan<string>>)
    ensures r.Some? ==> |r.value.rest| <= |t| && AtFieldEnd(r.value.rest)
    decreases |t|
  {
    if AtFieldEnd(t) then Some(Scan("", t))
    else if t[0] == '"' then None
    else
      match ReadPlain(t[1..])
      case None => None
      case Some(sc) => Some(Scan([t[0]] + sc.value, sc.rest))
  }

  /** Reads one field, quoted or not; a quoted field must be followed by a
      separator, a line break or the end. */
  function ReadField(t: string): (r: Option<Scan<string>>)
    ensures r.Some? ==> |r.value.rest| <= |t| && AtFieldEnd(r.value.rest)
  {
    if |t| > 0 && t[0] == '"' then
      match ReadQuoted(t[1..])
      case None => None
      case Some(sc) => if AtFieldEnd(sc.rest) then Some(sc) else None
    else ReadPlain(t)
  }

  /** Reads one record: its fields, and the text after its line break (empty at the end). */
  function ReadRecord(t: string): (r: Option<Scan<seq<string>>>)
    ensures r.Some? ==> |r.value.rest| <= |t|
    ensures r.Some? && r.value.rest != [] ==> |r.value.rest| < |t|
    decreases |t|
  {
    match ReadField(t)
    case None => None
    case Some(f) =>
      if f.rest == [] then Some(Scan([f.value], []))
      else if f.rest[0] == '\n' then Some(Scan([f.value], f.rest[1..]))
      else
        match ReadRecord(f.rest[1..])
        case None => None
        case Some(more) => Some(Scan([f.value] + more.value, more.rest))
  }

  /** Reads every record of a text. A final line break is optional. */
  function ReadTable(t: string): Option<seq<seq<string>>>
    decreases |t|
  {
    match ReadRecord(t)
    case None => None
    case Some(rec) =>
      if rec.rest == [] then Some([rec.value])
      else
        match ReadTable(rec.rest)
        case None => None
        case Some(recs) => Some([rec.value] + recs)
  }

  // ----- Round trip -----

  /** Reading the doubled text and the closing quote recovers the original. */
  lemma {:induction false} ReadQuotedDoubled(s: string, rest: string)
    requires rest == [] || rest[0] != '"'
    ensures ReadQuoted(DoubleQuotes(s) + "\"" + rest) == Some(Scan(s, rest))
    decreases |s|
  {
    var t := DoubleQuotes(s) + "\"" + rest;
    if s == [] {
      assert t == "\"" + rest;
      assert t[1..] == rest;
    } else {
      var tail := DoubleQuotes(s[1..]) + "\"" + rest;
      ReadQuotedDoubled(s[1..], rest);
      if s[0] == '"' {
        assert t == "\"\"" + tail;
        assert t[2..] == tail;
      } else {
        assert t == [s[0]] + tail;
        assert t[1..] == tail;
      }
      assert [s[0]] + s[1..] == s;
    }
  }

  /** An escaped field reads back as its original text (section 2, rule 7, of RFC 4180). */
  lemma EscapeRoundTrip(s: string, rest: string)
    requires AtFieldEnd(rest)
    ensures ReadField(Escape(s) + rest) == Some(Scan(s, rest))
  {
    var t := Escape(s) + rest;
    assert t[1..] == DoubleQuotes(s) + "\"" + rest;
    ReadQuotedDoubled(s, rest);
  }

  /** The only quoted field that reads back as `s` is `Escape(s)`. */
  lemma {:induction false} ReadQuotedOnlyDoubled(t: string, s: string, rest: string)
    requires ReadQuoted(t) == Some(Scan(s, rest))
    ensures t == DoubleQuotes(s) + "\"" + rest
    decreases |t|
  {
    if t[0] == '"' {
      if |t| >= 2 && t[1] == '"' {
        var sc := ReadQuoted(t[2..]).value;
        ReadQuotedOnlyDoubled(t[2..], sc.value, rest);
        assert s == "\"" + sc.value;
        assert s[0] == '"' && s[1..] == sc.value;
        assert DoubleQuotes(s) == "\"\"" + DoubleQuotes(sc.value);
        calc {
          t;
          "\"\"" + t[2..];
          "\"\"" + (DoubleQuotes(sc.value) + "\"" + rest);
          ("\"\"" + DoubleQuotes(sc.value)) + "\"" + rest;
        }
      } else {
        assert s == "";
        assert DoubleQuotes(s) == "";
        assert t == "\"" + t[1..];
      }
    } else {
      var sc := ReadQuoted(t[1..]).value;
      ReadQuotedOnlyDoubled(t[1..], sc.value, rest);
      assert s == [t[0]] + sc.value;
      assert s[0] == t[0] && s[1..] == sc.value;
      assert DoubleQuotes(s) == [t[0]] + DoubleQuotes(sc.value);
      calc {
        t;
        [t[0]] + t[1..];
        [t[0]] + (DoubleQuotes(sc.value) + "\"" + rest);
        ([t[0]] + DoubleQuotes(sc.value)) + "\"" + rest;
      }
    }
  }

  /** Reading a quoted field and escaping are inverse in both directions. */
  lemma EscapeIffRead(s: string, t: string)
    requires |t| > 0 && t[0] == '"'
    ensures ReadField(t) == Some(Scan(s, [])) <==> t == Escape(s)
  {
    if ReadField(t) == Some(Scan(s, [])) {
      ReadQuotedOnlyDoubled(t[1..], s, []);
      assert t == "\"" + t[1..];
    }
    if t == Escape(s) {
      EscapeRoundTrip(s, []);
      assert t + [] == t;
    }
  }

  lemma {:induction false} ReadPlainText(s: string, rest: string)
    requires PlainText(s) && AtFieldEnd(rest)
    ensures ReadPlain(s + rest) == Some(Scan(s, rest))
    decreases |s|
  {
    if s == [] {
      assert s + rest == rest;
    } else {
      assert (s + rest)[1..] == s[1..] + rest;
      ReadPlainText(s[1..], rest);
      assert [s[0]] + s[1..] == s;
    }
  }

  lemma ReadCell(c: Cell, rest: string)
    requires CellOk(c) && AtFieldEnd(rest)
    ensures ReadField(Render(c) + rest) == Some(Scan(c.text, rest))
  {
    match c
    case Quoted(s) => EscapeRoundTrip(s, rest);
    case Plain(s) =>
      ReadPlainText(s, rest);
      if |s| > 0 {
        assert !Special(s[0]);
      } else {
        assert (s + rest) == rest;
      }
  }

  /** A line of two or more cells is its first cell, a separator and the rest. */
  lemma LineCons(cells: seq<Cell>)
    requires |cells| >= 2
    ensures Line(cells) == Render(cells[0]) + "," + Line(cells[1..])
  {
    assert RenderAll(cells)[1..] == RenderAll(cells[1..]);
  }

  /** A record whose first field is followed by a separator continues with the rest. */
  lemma ReadRecordCons(c: Cell, tail: string, more: Scan<seq<string>>)
    requires CellOk(c)
    requires ReadRecord(tail) == Some(more)
    ensures ReadRecord(Render(c) + ("," + tail)) == Some(Scan([c.text] + more.value, more.rest))
  {
    ReadCell(c, "," + tail);
    assert ("," + tail)[1..] == tail;
  }

  lemma TextsCons(cells: seq<Cell>)
    requires |cells| >= 1
    ensures Texts(cells) == [cells[0].text] + Texts(cells[1..])
  {
  }

  lemma LineAppend(cells: seq<Cell>, rest: string)
    requires |cells| >= 2
    ensures Line(cells) + rest == Render(cells[0]) + ("," + (Line(cells[1..]) + rest))
  {
    LineCons(cells);
  }

  /** One step of reading a line: the first cell, then whatever the rest reads as. */
  lemma ReadLineStep(cells: seq<Cell>, rest: string, after: string)
    requires |cells| >= 2 && CellOk(cells[0])
    requires ReadRecord(Line(cells[1..]) + rest) == Some(Scan(Texts(cells[1..]), after))
    ensures ReadRecord(Line(cells) + rest) == Some(Scan(Texts(cells), after))
  {
    LineAppend(cells, rest);
    ReadRecordCons(cells[0], Line(cells[1..]) + rest, Scan(Texts(cells[1..]), after));
    TextsCons(cells);
  }

  /** A rendered line reads back as the texts of its cells. */
  lemma {:induction false} ReadLine(cells: seq<Cell>, rest: string)
    requires |cells| >= 1
    requires forall i :: 0 <= i < |cells| ==> CellOk(cells[i])
    requires rest == [] || rest[0] == '\n'
    ensures ReadRecord(Line(cells) + rest) == Some(Scan(Texts(cells), if rest == [] then [] else rest[1..]))
    decreases |cells|
  {
    if |cells| == 1 {
      assert Line(cells) == Render(cells[0]);
      ReadCell(cells[0], rest);
      assert Texts(cells) == [cells[0].text];
    } else {
      ReadLine(cells[1..], rest);
      ReadLineStep(cells, rest, if rest == [] then [] else rest[1..]);
    }
  }

  predicate RowOk(cells: seq<Cell>) {
    |cells| >= 2 && forall i :: 0 <= i < |cells| ==> CellOk(cells[i])
  }

  function LinesOf(rows: seq<seq<Cell>>): (r: seq<string>)
    ensures |r| == |rows|
  {
    if rows == [] then [] else [Line(rows[0])] + LinesOf(rows[1..])
  }

  function TextsOf(rows: seq<seq<Cell>>): seq<seq<string>> {
    if rows == [] then [] else [Texts(rows[0])] + TextsOf(rows[1..])
  }

  /** A line of two or more cells holds a separator, so it is never empty. */
  lemma LineNonEmpty(cells: seq<Cell>)
    requires |cells| >= 2
    ensures |Line(cells)| > 0
  {
  }

  /** Lines joined by line breaks read back as one record per line. */
  lemma {:induction false} ReadLines(rows: seq<seq<Cell>>)
    requires |rows| >= 1
    requires forall k :: 0 <= k < |rows| ==> RowOk(rows[k])
    ensures ReadTable(Join("\n", LinesOf(rows))) == Some(TextsOf(rows))
    decreases |rows|
  {
    if |rows| == 1 {
      assert Join("\n", LinesOf(rows)) == Line(rows[0]) + [];
      ReadLine(rows[0], []);
      assert TextsOf(rows) == [Texts(rows[0])];
    } else {
      var tail := Join("\n", LinesOf(rows[1..]));
      assert LinesOf(rows)[1..] == LinesOf(rows[1..]);
      assert Join("\n", LinesOf(rows)) == Line(rows[0]) + ("\n" + tail);
      ReadLine(rows[0], "\n" + tail);
      assert ("\n" + tail)[1..] == tail;
      assert tail != [] by {
        LineNonEmpty(rows[1]);
        if |rows[1..]| == 1 {
          assert tail == Line(rows[1]);
        } else {
          assert tail == Line(rows[1]) + "\n" + Join("\n", LinesOf(rows[1..])[1..]);
        }
      }
      ReadLines(rows[1..]);
    }
  }

  function RowsOf(ps: seq<Prompt>): (r: seq<seq<Cell>>)
    ensures |r| == |ps|
    ensures forall i :: 0 <= i < |ps| ==> r[i] == RowCells(ps[i])
  {
    if ps == [] then [] else [RowCells(ps[0])] + RowsOf(ps[1..])
  }

  /** The record a reader recovers for one card: its id, its prompt, its result
      text (empty when there is none), `[object Object]` when it was evaluated,
      and its length, latency and token count. */
  function RecordOf(p: Prompt): (rec: seq<string>) {
    var r := p.result;
    [ Strings.IntText(p.id),
      p.prompt,
      if r.Some? then r.value.result else "",
      if r.Some? && r.value.quality.Some? then ObjectText else "",
      OptionalNumber(if r.Some? then Some(r.value.length) else None),
      OptionalNumber(if r.Some? then Some(r.value.latency) else None),
      OptionalNumber(if r.Some? then Some(r.value.tokenUsage) else None) ]
  }

  function RecordsOf(ps: seq<Prompt>): (r: seq<seq<string>>)
    ensures |r| == |ps|
    ensures forall i :: 0 <= i < |ps| ==> r[i] == RecordOf(ps[i])
  {
    if ps == [] then [] else [RecordOf(ps[0])] + RecordsOf(ps[1..])
  }

  lemma IntTextPlain(n: int)
    ensures PlainText(Strings.IntText(n))
  {
  }

  lemma OptionalNumberPlain(n: Option<int>)
    ensures PlainText(OptionalNumber(n))
  {
    if n.Some? {
      IntTextPlain(n.value);
    }
  }

  lemma RowCellsOk(p: Prompt)
    ensures RowOk(RowCells(p))
  {
    var r := p.result;
    var cells := RowCells(p);
    IntTextPlain(p.id);
    OptionalNumberPlain(if r.Some? then Some(r.value.length) else None);
    OptionalNumberPlain(if r.Some? then Some(r.value.latency) else None);
    OptionalNumberPlain(if r.Some? then Some(r.value.tokenUsage) else None);
    assert CellOk(cells[3]);
    forall i | 0 <= i < |cells|
      ensures CellOk(cells[i])
    {
    }
  }

  lemma RowCellsTexts(p: Prompt)
    ensures Texts(RowCells(p)) == RecordOf(p)
  {
  }

  lemma HeaderOk()
    ensures RowOk(HeaderCells())
    ensures Texts(HeaderCells()) == Headers
  {
    var cells := HeaderCells();
    forall i | 0 <= i < |cells|
      ensures CellOk(cells[i]) && cells[i].text == Headers[i]
    {
      assert cells[i] == Plain(Headers[i]);
    }
  }

  lemma RowsOfShape(ps: seq<Prompt>)
    ensures LinesOf([HeaderCells()] + RowsOf(ps)) == [Line(HeaderCells())] + RowLines(ps)
    ensures TextsOf([HeaderCells()] + RowsOf(ps)) == [Headers] + RecordsOf(ps)
    ensures forall k :: 0 <= k < |ps| + 1 ==> RowOk(([HeaderCells()] + RowsOf(ps))[k])
  {
    var rows := [HeaderCells()] + RowsOf(ps);
    assert rows[1..] == RowsOf(ps);
    LinesOfRows(ps);
    TextsOfRows(ps);
    HeaderOk();
    assert LinesOf(rows) == [Line(HeaderCells())] + LinesOf(RowsOf(ps));
    assert TextsOf(rows) == [Texts(HeaderCells())] + TextsOf(RowsOf(ps));
    forall k | 0 <= k < |ps| + 1
      ensures RowOk(rows[k])
    {
      if k > 0 {
        assert rows[k] == RowCells(ps[k - 1]);
        RowCellsOk(ps[k - 1]);
      }
    }
  }

  lemma {:induction false} LinesOfRows(ps: seq<Prompt>)
    ensures LinesOf(RowsOf(ps)) == RowLines(ps)
    decreases |ps|
  {
    if ps != [] {
      LinesOfRows(ps[1..]);
      assert RowsOf(ps)[1..] == RowsOf(ps[1..]);
    }
  }

  lemma {:induction false} TextsOfRows(ps: seq<Prompt>)
    ensures TextsOf(RowsOf(ps)) == RecordsOf(ps)
    decreases |ps|
  {
    if ps != [] {
      TextsOfRows(ps[1..]);
      assert RowsOf(ps)[1..] == RowsOf(ps[1..]);
      RowCellsTexts(ps[0]);
    }
  }

  /** Reading the exported text back per RFC 4180 gives the seven-column header
      followed by one record per card, in list order, with every prompt and
      result text recovered exactly. */
  lemma ExportReadsBack(ps: seq<Prompt>)
    ensures ReadTable(ExportCsv(ps)) == Some([Headers] + RecordsOf(ps))
  {
    var rows := [HeaderCells()] + RowsOf(ps);
    RowsOfShape(ps);
    ReadLines(rows);
  }
}
