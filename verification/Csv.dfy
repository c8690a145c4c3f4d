/**
 * CSV printing (dashboard/src/utils/csv.ts) against a reader for section 2 of RFC 4180.
 */
module Csv {
  import opened Wrappers

  /** A resolved value: null and undefined, or anything else after `String(value)`. */
  datatype Cell = Missing | Text(text: string)

  /** A header label, and the value a row has in this column after its formatter. */
  datatype Column<!Row> = Column(header: string, cell: Row -> Cell)

  // ----- printing -----

  predicate Formula(s: string) {
    s != "" && (s[0] == '=' || s[0] == '+' || s[0] == '-' || s[0] == '@')
  }

  predicate Special(c: char) {
    c == '"' || c == ',' || c == '\r' || c == '\n'
  }

  function Neutralise(raw: string): string {
    if Formula(raw) then "'" + raw else raw
  }

  function DoubleQuotes(s: string): string {
    if s == "" then "" else (if s[0] == '"' then "\"\"" else [s[0]]) + DoubleQuotes(s[1..])
  }

  function EscapeField(value: Cell): string {
    match value
    case Missing => ""
    case Text(raw) =>
      var str := Neutralise(raw);
      if exists c :: c in str && Special(c) then "\"" + DoubleQuotes(str) + "\"" else str
  }

  function EscapeAll(values: seq<Cell>): seq<string> {
    seq(|values|, i requires 0 <= i < |values| => EscapeField(values[i]))
  }

  function Join(parts: seq<string>, separator: string): string {
    if |parts| == 0 then ""
    else if |parts| == 1 then parts[0]
    else parts[0] + separator + Join(parts[1..], separator)
  }

  function Headers<Row>(columns: seq<Column<Row>>): seq<Cell> {
    seq(|columns|, i requires 0 <= i < |columns| => Text(columns[i].header))
  }

  function Values<Row>(row: Row, columns: seq<Column<Row>>): seq<Cell> {
    seq(|columns|, i requires 0 <= i < |columns| => columns[i].cell(row))
  }

  /** The header line's cells, then those of every row. */
  function Grid<Row>(rows: seq<Row>, columns: seq<Column<Row>>): seq<seq<Cell>> {
    [Headers(columns)] + seq(|rows|, i requires 0 <= i < |rows| => Values(rows[i], columns))
  }

  function Lines(grid: seq<seq<Cell>>): seq<string> {
    seq(|grid|, i requires 0 <= i < |grid| => Join(EscapeAll(grid[i]), ","))
  }

  function Print(grid: seq<seq<Cell>>): string {
    Join(Lines(grid), "\r\n") + "\r\n"
  }

  function ToCsv<Row>(rows: seq<Row>, columns: seq<Column<Row>>): string {
    Print(Grid(rows, columns))
  }

  // ----- reading: RFC 4180, section 2 -----

  /** The inside of a quoted field, from after its opening quote; a doubled quote stands for one. */
  function ReadQuoted(s: string): (r: Option<(string, string)>)
    ensures r.Some? ==> |r.value.1| < |s|
  {
    if s == "" then
      None
    else if s[0] != '"' then
      match ReadQuoted(s[1..])
      case None => None
      case Some((text, rest)) => Some(([s[0]] + text, rest))
    else if |s| > 1 && s[1] == '"' then
      match ReadQuoted(s[2..])
      case None => None
      case Some((text, rest)) => Some(("\"" + text, rest))
    else
      Some(("", s[1..]))
  }

  /** An unquoted field: everything up to a quote, a comma, or either half of a line break. */
  function ReadPlain(s: string): (r: (string, string))
    ensures |r.1| <= |s|
  {
    if s == "" || Special(s[0]) then ("", s)
    else
      var (text, rest) := ReadPlain(s[1..]);
      ([s[0]] + text, rest)
  }

  function ReadField(s: string): (r: Option<(string, string)>)
    ensures r.Some? ==> |r.value.1| <= |s|
  {
    if s != "" && s[0] == '"' then ReadQuoted(s[1..]) else Some(ReadPlain(s))
  }

  function ReadRecord(s: string): (r: Option<(seq<string>, string)>)
    ensures r.Some? ==> |r.value.1| <= |s|
    decreases |s|
  {
    match ReadField(s)
    case None => None
    case Some((field, rest)) =>
      if rest != "" && rest[0] == ',' then
        match ReadRecord(rest[1..])
        case None => None
        case Some((fields, end)) => Some(([field] + fields, end))
      else
        Some(([field], rest))
  }

  /** Records are separated by CRLF, and the last one may or may not be followed by one. */
  function ReadFile(s: string): Option<seq<seq<string>>>
    decreases |s|
  {
    match ReadRecord(s)
    case None => None
    case Some((record, rest)) =>
      if rest == "" || rest == "\r\n" then
        Some([record])
      else if |rest| > 2 && rest[..2] == "\r\n" then
        match ReadFile(rest[2..])
        case None => None
        case Some(records) => Some([record] + records)
      else
        None
  }

  // ----- the round trip -----

  /** The text a cell stands for once formulas are neutralised. */
  function Shown(value: Cell): string {
    if value.Missing? then "" else Neutralise(value.text)
  }

  function ShownAll(values: seq<Cell>): seq<string> {
    seq(|values|, i requires 0 <= i < |values| => Shown(values[i]))
  }

  function ShownGrid(grid: seq<seq<Cell>>): seq<seq<string>> {
    seq(|grid|, i requires 0 <= i < |grid| => ShownAll(grid[i]))
  }

  lemma {:induction false} QuotedReadsBack(t: string, tail: string)
    requires tail == "" || tail[0] != '"'
    ensures ReadQuoted(DoubleQuotes(t) + "\"" + tail) == Some((t, tail))
  {
    var s := DoubleQuotes(t) + "\"" + tail;
    if t == "" {
      assert s == "\"" + tail;
    } else {
      QuotedReadsBack(t[1..], tail);
      var inner := DoubleQuotes(t[1..]) + "\"" + tail;
      if t[0] == '"' {
        assert s == "\"\"" + inner;
        assert s[2..] == inner;
      } else {
        assert s == [t[0]] + inner;
        assert s[1..] == inner;
      }
      assert [t[0]] + t[1..] == t;
    }
  }

  lemma {:induction false} PlainReadsBack(t: string, tail: string)
    requires forall c :: c in t ==> !Special(c)
    requires tail == "" || Special(tail[0])
    ensures ReadPlain(t + tail) == (t, tail)
  {
    if t == "" {
      assert t + tail == tail;
    } else {
      PlainReadsBack(t[1..], tail);
      assert (t + tail)[1..] == t[1..] + tail;
      assert [t[0]] + t[1..] == t;
      assert t[0] in t;
    }
  }

  predicate NeedsQuotes(value: Cell) {
    value.Text? && exists c :: c in Shown(value) && Special(c)
  }

  lemma QuotedFieldReadsBack(value: Cell, tail: string)
    requires NeedsQuotes(value) && (tail == "" || tail[0] != '"')
    ensures ReadField(EscapeField(value) + tail) == Some((Shown(value), tail))
  {
    QuotedReadsBack(Shown(value), tail);
    var body := DoubleQuotes(Shown(value)) + "\"" + tail;
    assert EscapeField(value) + tail == "\"" + body;
    assert ("\"" + body)[1..] == body;
  }

  /** A field that is followed by a comma or a line break reads back as its shown text. */
  lemma FieldReadsBack(value: Cell, tail: string)
    requires tail != "" && (tail[0] == ',' || tail[0] == '\r')
    ensures ReadField(EscapeField(value) + tail) == Some((Shown(value), tail))
  {
    if NeedsQuotes(value) {
      QuotedFieldReadsBack(value, tail);
    } else {
      var str := Shown(value);
      PlainReadsBack(str, tail);
      assert str != "" ==> str[0] in str;
    }
  }

  lemma JoinFirst(parts: seq<string>, separator: string, tail: string)
    requires |parts| > 1
    ensures Join(parts, separator) + "\r\n" + tail
            == parts[0] + (separator + (Join(parts[1..], separator) + "\r\n" + tail))
  {
  }

  lemma FieldAndRest(value: Cell, rest: string)
    requires ReadRecord(rest).Some?
    ensures ReadRecord(EscapeField(value) + ("," + rest))
            == Some(([Shown(value)] + ReadRecord(rest).value.0, ReadRecord(rest).value.1))
  {
    FieldReadsBack(value, "," + rest);
    assert ("," + rest)[1..] == rest;
  }

  function Line(values: seq<Cell>, tail: string): string {
    Join(EscapeAll(values), ",") + "\r\n" + tail
  }

  lemma SplitLine(values: seq<Cell>, tail: string)
    requires |values| > 1
    ensures Line(values, tail) == EscapeField(values[0]) + ("," + Line(values[1..], tail))
  {
    assert EscapeAll(values)[1..] == EscapeAll(values[1..]);
    JoinFirst(EscapeAll(values), ",", tail);
  }

  lemma OneFieldReadsBack(values: seq<Cell>, tail: string)
    requires |values| == 1
    ensures ReadRecord(Line(values, tail)) == Some((ShownAll(values), "\r\n" + tail))
  {
    assert Line(values, tail) == EscapeField(values[0]) + ("\r\n" + tail);
    FieldReadsBack(values[0], "\r\n" + tail);
    assert ShownAll(values) == [Shown(values[0])];
  }

  lemma MoreFieldsReadBack(values: seq<Cell>, tail: string)
    requires |values| > 1
    requires ReadRecord(Line(values[1..], tail)) == Some((ShownAll(values[1..]), "\r\n" + tail))
    ensures ReadRecord(Line(values, tail)) == Some((ShownAll(values), "\r\n" + tail))
  {
    SplitLine(values, tail);
    FieldAndRest(values[0], Line(values[1..], tail));
    assert ShownAll(values) == [Shown(values[0])] + ShownAll(values[1..]);
  }

  lemma {:induction false} RecordReadsBack(values: seq<Cell>, tail: string)
    requires |values| > 0
    ensures ReadRecord(Line(values, tail)) == Some((ShownAll(values), "\r\n" + tail))
  {
    if |values| == 1 {
      OneFieldReadsBack(values, tail);
    } else {
      RecordReadsBack(values[1..], tail);
      MoreFieldsReadBack(values, tail);
    }
  }

  lemma OneLineReadsBack(grid: seq<seq<Cell>>)
    requires |grid| == 1 && |grid[0]| > 0
    ensures ReadFile(Print(grid)) == Some(ShownGrid(grid))
  {
    assert Print(grid) == Line(grid[0], "");
    RecordReadsBack(grid[0], "");
    assert "\r\n" + "" == "\r\n";
    assert ShownGrid(grid) == [ShownAll(grid[0])];
  }

  lemma MoreLinesReadBack(grid: seq<seq<Cell>>)
    requires |grid| > 1 && |grid[0]| > 0 && ReadFile(Print(grid[1..])) == Some(ShownGrid(grid[1..]))
    ensures ReadFile(Print(grid)) == Some(ShownGrid(grid))
  {
    var tail := Print(grid[1..]);
    assert Lines(grid)[1..] == Lines(grid[1..]);
    assert Print(grid) == Line(grid[0], tail);
    RecordReadsBack(grid[0], tail);
    assert ("\r\n" + tail)[..2] == "\r\n" && ("\r\n" + tail)[2..] == tail;
    assert ShownGrid(grid) == [ShownAll(grid[0])] + ShownGrid(grid[1..]);
  }

  lemma {:induction false} LinesReadBack(grid: seq<seq<Cell>>)
    requires |grid| > 0 && forall i :: 0 <= i < |grid| ==> |grid[i]| > 0
    ensures ReadFile(Print(grid)) == Some(ShownGrid(grid))
  {
    if |grid| == 1 {
      OneLineReadsBack(grid);
    } else {
      LinesReadBack(grid[1..]);
      MoreLinesReadBack(grid);
    }
  }

  /**
   * The printed text reads back as exactly the header and every row, field for field, for any
   * text at all: the table must have a column, and that is the only condition. Without columns
   * the header line is empty, which reads as one empty field.
   */
  lemma RoundTripExactly<Row>(rows: seq<Row>, columns: seq<Column<Row>>)
    ensures ReadFile(ToCsv(rows, columns)) == Some(ShownGrid(Grid(rows, columns))) <==> |columns| > 0
  {
    var grid := Grid(rows, columns);
    if |columns| > 0 {
      assert forall i :: 0 <= i < |grid| ==> |grid[i]| == |columns|;
      LinesReadBack(grid);
    } else {
      assert |ShownGrid(grid)[0]| == 0;
      if records: seq<seq<string>> :| ReadFile(ToCsv(rows, columns)) == Some(records) {
        assert |records[0]| > 0;
      }
    }
  }

  /** What is read back where a text was printed: the text itself, after an apostrophe if it would be a formula. */
  predicate ReadsAs(field: string, text: string) {
    if text != "" && text[0] in {'=', '+', '-', '@'} then field == "'" + text else field == text
  }

  predicate CellReadsAs(field: string, value: Cell) {
    match value
    case Missing => field == ""
    case Text(text) => ReadsAs(field, text)
  }

  lemma ShownReadsAs(value: Cell)
    ensures CellReadsAs(Shown(value), value)
  {
  }

  lemma ShownField<Row>(rows: seq<Row>, columns: seq<Column<Row>>, i: nat, j: nat)
    requires i <= |rows| && j < |columns|
    ensures var shown := ShownGrid(Grid(rows, columns));
            && |shown| == |rows| + 1 && |shown[i]| == |columns|
            && shown[i][j] == Shown(if i == 0 then Text(columns[j].header) else columns[j].cell(rows[i - 1]))
  {
    var grid := Grid(rows, columns);
    assert ShownGrid(grid)[i] == ShownAll(grid[i]);
    assert grid[i][j] == if i == 0 then Text(columns[j].header) else columns[j].cell(rows[i - 1]);
  }

  /**
   * Of a table with a column every header and every cell reads back in its place: a missing cell as the empty
   * text, and a text as itself, but for the apostrophe before one that starts with a formula character.
   */
  lemma FieldsReadBack<Row>(rows: seq<Row>, columns: seq<Column<Row>>, i: nat, j: nat)
    requires i <= |rows| && j < |columns|
    ensures var file := ReadFile(ToCsv(rows, columns));
            && file.Some? && |file.value| == |rows| + 1 && |file.value[i]| == |columns|
            && if i == 0 then ReadsAs(file.value[0][j], columns[j].header)
               else CellReadsAs(file.value[i][j], columns[j].cell(rows[i - 1]))
  {
    RoundTripExactly(rows, columns);
    ShownField(rows, columns, i, j);
    ShownReadsAs(if i == 0 then Text(columns[j].header) else columns[j].cell(rows[i - 1]));
  }

  lemma {:induction false} NothingDoubled(s: string)
    requires '"' !in s
    ensures DoubleQuotes(s) == s
  {
    if s != "" {
      NothingDoubled(s[1..]);
      assert s == [s[0]] + s[1..];
    }
  }

  /** A field is quoted only for a quote, a comma or a line break in it, and then holds its text with quotes doubled. */
  lemma PrintedField(text: string)
    requires text == "" || text[0] !in {'=', '+', '-', '@'}
    ensures var quoted := '"' in text || ',' in text || '\r' in text || '\n' in text;
            if !quoted then EscapeField(Text(text)) == text
            else EscapeField(Text(text)) == "\"" + DoubleQuotes(text) + "\""
                 && ('"' !in text ==> EscapeField(Text(text)) == "\"" + text + "\"")
  {
    assert (exists c :: c in text && Special(c)) <==> '"' in text || ',' in text || '\r' in text || '\n' in text by {
      assert Special('"') && Special(',') && Special('\r') && Special('\n');
    }
    if '"' !in text {
      NothingDoubled(text);
    }
  }

  /** Nothing in it needs quotes, and it is no formula. */
  predicate IsPlain(text: string) {
    '"' !in text && ',' !in text && '\r' !in text && '\n' !in text && (text == "" || text[0] !in {'=', '+', '-', '@'})
  }

  lemma PrintedLine(c: Cell, d: Cell)
    requires c.Text? && d.Text? && IsPlain(c.text) && IsPlain(d.text)
    ensures Join(EscapeAll([c, d]), ",") == c.text + "," + d.text
  {
    PrintedField(c.text);
    PrintedField(d.text);
    assert EscapeAll([c, d]) == [c.text, d.text] && [c.text, d.text][1..] == [d.text];
  }

  lemma TwoLines(grid: seq<seq<Cell>>, first: string, second: string)
    requires |grid| == 2 && Join(EscapeAll(grid[0]), ",") == first && Join(EscapeAll(grid[1]), ",") == second
    ensures Print(grid) == first + "\r\n" + second + "\r\n"
  {
    assert Lines(grid) == [first, second] && [first, second][1..] == [second];
    assert Join([first, second], "\r\n") == first + "\r\n" + second;
  }

  /** Two columns and a row of plain texts as they are printed: commas between, CRLF after each line. */
  lemma PrintedTable<Row>(row: Row, c: Column<Row>, d: Column<Row>)
    requires IsPlain(c.header) && IsPlain(d.header) && c.cell(row).Text? && d.cell(row).Text?
    requires IsPlain(c.cell(row).text) && IsPlain(d.cell(row).text)
    ensures ToCsv([row], [c, d])
            == (c.header + "," + d.header) + "\r\n" + (c.cell(row).text + "," + d.cell(row).text) + "\r\n"
  {
    var grid := Grid([row], [c, d]);
    assert grid[0] == [Text(c.header), Text(d.header)] && grid[1] == [c.cell(row), d.cell(row)];
    PrintedLine(grid[0][0], grid[0][1]);
    PrintedLine(grid[1][0], grid[1][1]);
    assert grid[0] == [grid[0][0], grid[0][1]] && grid[1] == [grid[1][0], grid[1][1]];
    TwoLines(grid, c.header + "," + d.header, c.cell(row).text + "," + d.cell(row).text);
  }

  /** No field that is read back begins with a character a spreadsheet would evaluate. */
  lemma NothingReadsAsFormula<Row>(rows: seq<Row>, columns: seq<Column<Row>>, i: nat, j: nat)
    requires |columns| > 0
    ensures var file := ReadFile(ToCsv(rows, columns));
            && file.Some? && |file.value| == |rows| + 1
            && (i < |file.value| && j < |columns| ==> j < |file.value[i]| && !Formula(file.value[i][j]))
  {
    RoundTripExactly(rows, columns);
  }

  /** Two tables print alike exactly when they show the same texts: only neutralising loses anything. */
  lemma SameTextExactly<Row>(rows: seq<Row>, rows': seq<Row>, columns: seq<Column<Row>>)
    requires |columns| > 0
    ensures ToCsv(rows, columns) == ToCsv(rows', columns)
            <==> ShownGrid(Grid(rows, columns)) == ShownGrid(Grid(rows', columns))
  {
    var grid, grid' := Grid(rows, columns), Grid(rows', columns);
    RoundTripExactly(rows, columns);
    RoundTripExactly(rows', columns);
    if ShownGrid(grid) == ShownGrid(grid') {
      assert |grid| == |ShownGrid(grid)| && |grid'| == |ShownGrid(grid')|;
      forall i | 0 <= i < |grid| ensures Lines(grid)[i] == Lines(grid')[i] {
        assert ShownGrid(grid)[i] == ShownAll(grid[i]) && ShownGrid(grid')[i] == ShownAll(grid'[i]);
        SameLine(grid[i], grid'[i]);
      }
      assert Lines(grid) == Lines(grid');
    }
  }

  lemma SameLine(values: seq<Cell>, values': seq<Cell>)
    requires ShownAll(values) == ShownAll(values')
    ensures EscapeAll(values) == EscapeAll(values')
  {
    assert |values| == |ShownAll(values)| && |values'| == |ShownAll(values')|;
    forall i | 0 <= i < |values| ensures EscapeField(values[i]) == EscapeField(values'[i]) {
      assert ShownAll(values)[i] == Shown(values[i]) && ShownAll(values')[i] == Shown(values'[i]);
    }
  }
}
