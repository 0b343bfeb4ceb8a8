/** pandas.read_csv with its default settings, as the page reads back the table it has just
    written: the fields of its C tokenizer (delimiter ',', quote '"', a doubled quote inside
    quotes standing for one), the row widths it accepts, its default missing-value strings
    and the column types it infers. */
module Csv {
  import opened Results
  import opened Text

  /** The text of every tokenizing error, which pandas raises as a ParserError. */
  const TokenizeError := "Error tokenizing data"
  const NoColumns := "No columns to parse from file"

  // ---------------------------------------------------------------------------------
  // Fields

  datatype Ending = AtComma | AtNewline | AtEnd

  /** A field read from the front of a text, with what is left after its terminator; or
      the text ended inside quotes. */
  datatype Scan = Scanned(text: string, rest: string, ending: Ending) | OpenQuote

  function Prepend(c: char, r: Scan): Scan
  {
    if r.Scanned? then Scanned([c] + r.text, r.rest, r.ending) else r
  }

  /** The rest of a field, inside quotes or not. Inside quotes everything is kept, a doubled
      quote stands for one and a single quote closes the quotes; outside them a comma or a
      newline ends the field and a quote is an ordinary character. */
  function FieldRest(s: string, quoted: bool): (r: Scan)
    ensures r.Scanned? ==> |r.rest| <= |s|
    ensures r.Scanned? && r.ending != AtEnd ==> |r.rest| < |s|
    ensures r.Scanned? && r.ending == AtEnd ==> r.rest == []
    decreases |s|
  {
    if |s| == 0 then (if quoted then OpenQuote else Scanned([], [], AtEnd))
    else if quoted then
      if s[0] != '"' then Prepend(s[0], FieldRest(s[1..], true))
      else if |s| > 1 && s[1] == '"' then Prepend('"', FieldRest(s[2..], true))
      else FieldRest(s[1..], false)
    else if s[0] == ',' then Scanned([], s[1..], AtComma)
    else if s[0] == '\n' then Scanned([], s[1..], AtNewline)
    else Prepend(s[0], FieldRest(s[1..], false))
  }

  /** A field is quoted when its first character is a quote. */
  function FieldAt(s: string): (r: Scan)
    ensures r.Scanned? ==> |r.rest| <= |s|
    ensures r.Scanned? && r.ending != AtEnd ==> |r.rest| < |s|
    ensures r.Scanned? && r.ending == AtEnd ==> r.rest == []
  {
    if |s| > 0 && s[0] == '"' then FieldRest(s[1..], true) else FieldRest(s, false)
  }

  // ---------------------------------------------------------------------------------
  // Records

  datatype Line = Line(fields: seq<string>, rest: string)

  /** The fields of one record: up to a newline outside quotes, or to the end of the text. */
  function RecordOf(s: string): (r: Result<Line>)
    ensures r.Ok? ==> |r.value.fields| >= 1 && |r.value.rest| <= |s|
    ensures r.Ok? && |s| > 0 ==> |r.value.rest| < |s|
    ensures r.Err? ==> r.message == TokenizeError
    decreases |s|
  {
    match FieldAt(s)
    case OpenQuote => Err(TokenizeError)
    case Scanned(t, rest, e) =>
      if e == AtComma then
        match RecordOf(rest)
        case Err(m) => Err(m)
        case Ok(l) => Ok(Line([t] + l.fields, l.rest))
      else Ok(Line([t], rest))
  }

  /** Every record of a text, in order; a line holding nothing but its newline is skipped. */
  function Records(s: string): (r: Result<seq<seq<string>>>)
    ensures r.Err? ==> r.message == TokenizeError
    decreases |s|
  {
    if |s| == 0 then Ok([])
    else if s[0] == '\n' then Records(s[1..])
    else
      match RecordOf(s)
      case Err(m) => Err(m)
      case Ok(l) =>
        match Records(l.rest)
        case Err(m) => Err(m)
        case Ok(rest) => Ok([l.fields] + rest)
  }

  // ---------------------------------------------------------------------------------
  // How a written field reads back

  /** A field written without quotes: it does not start with a quote and holds no comma
      and no newline. */
  predicate PlainField(w: string)
  {
    (|w| == 0 || w[0] != '"') && forall k :: 0 <= k < |w| ==> w[k] != ',' && w[k] != '\n'
  }

  /** A field written in quotes, with no quote inside. */
  predicate QuotedField(w: string)
  {
    |w| >= 2 && w[0] == '"' && w[|w| - 1] == '"' && forall k :: 1 <= k < |w| - 1 ==> w[k] != '"'
  }

  predicate Encodable(w: string) { PlainField(w) || QuotedField(w) }

  /** The text a field reads back as: a quoted field loses its quotes. */
  function Unquote(w: string): string
  {
    if |w| >= 2 && w[0] == '"' && w[|w| - 1] == '"' then w[1..|w| - 1] else w
  }

  function Unquoted(ws: seq<string>): (vs: seq<string>)
    ensures |vs| == |ws| && forall k :: 0 <= k < |ws| ==> vs[k] == Unquote(ws[k])
  {
    seq(|ws|, k requires 0 <= k < |ws| => Unquote(ws[k]))
  }

  function EndingOf(c: char): Ending { if c == ',' then AtComma else AtNewline }

  lemma {:induction false} FieldRestPlain(t: string, c: char, rest: string)
    requires forall k :: 0 <= k < |t| ==> t[k] != ',' && t[k] != '\n'
    requires c == ',' || c == '\n'
    ensures FieldRest(t + [c] + rest, false) == Scanned(t, rest, EndingOf(c))
    decreases |t|
  {
    var s := t + [c] + rest;
    if |t| == 0 {
      assert s == [c] + rest;
    } else {
      assert s[0] == t[0] && s[1..] == t[1..] + [c] + rest;
      FieldRestPlain(t[1..], c, rest);
      assert [t[0]] + t[1..] == t;
    }
  }

  lemma {:induction false} FieldRestQuoted(x: string, c: char, rest: string)
    requires forall k :: 0 <= k < |x| ==> x[k] != '"'
    requires c == ',' || c == '\n'
    ensures FieldRest(x + ['"', c] + rest, true) == Scanned(x, rest, EndingOf(c))
    decreases |x|
  {
    var s := x + ['"', c] + rest;
    if |x| == 0 {
      assert s == ['"', c] + rest && s[1..] == [c] + rest;
      assert s[1..][1..] == rest;
    } else {
      assert s[0] == x[0] && s[1..] == x[1..] + ['"', c] + rest;
      FieldRestQuoted(x[1..], c, rest);
      assert [x[0]] + x[1..] == x;
    }
  }

  /** A plain or quoted field followed by a comma or a newline reads back as its unquoted text. */
  lemma {:induction false} FieldAtEncodable(w: string, c: char, rest: string)
    requires Encodable(w)
    requires c == ',' || c == '\n'
    ensures FieldAt(w + [c] + rest) == Scanned(Unquote(w), rest, EndingOf(c))
  {
    var s := w + [c] + rest;
    if PlainField(w) {
      if |w| == 0 {
        assert s == [c] + rest;
      } else {
        assert s[0] == w[0];
      }
      FieldRestPlain(w, c, rest);
    } else {
      var x := w[1..|w| - 1];
      assert w == ['"'] + x + ['"'];
      assert s[1..] == x + ['"', c] + rest;
      FieldRestQuoted(x, c, rest);
    }
  }

  /** Comma-joined plain or quoted fields, ended by a newline, read back as one record of
      their unquoted texts. */
  lemma {:induction false} RecordOfEncodable(ws: seq<string>, rest: string)
    requires |ws| >= 1
    requires forall k :: 0 <= k < |ws| ==> Encodable(ws[k])
    ensures RecordOf(Join(ws, ',') + "\n" + rest) == Ok(Line(Unquoted(ws), rest))
    decreases |ws|
  {
    var s := Join(ws, ',') + "\n" + rest;
    if |ws| == 1 {
      assert s == ws[0] + ['\n'] + rest;
      FieldAtEncodable(ws[0], '\n', rest);
      assert Unquoted(ws) == [Unquote(ws[0])];
    } else {
      var tail := Join(ws[1..], ',') + "\n" + rest;
      assert Join(ws, ',') == ws[0] + [','] + Join(ws[1..], ',');
      assert s == ws[0] + [','] + tail;
      FieldAtEncodable(ws[0], ',', tail);
      assert forall k :: 0 <= k < |ws| - 1 ==> ws[1..][k] == ws[k + 1];
      RecordOfEncodable(ws[1..], rest);
      assert RecordOf(s) == Ok(Line([Unquote(ws[0])] + Unquoted(ws[1..]), rest));
      assert Unquoted(ws) == [Unquote(ws[0])] + Unquoted(ws[1..]);
    }
  }

  /** Lines of joined fields, each ended by a newline. */
  function Lines(ls: seq<seq<string>>): string
  {
    if |ls| == 0 then "" else Join(ls[0], ',') + "\n" + Lines(ls[1..])
  }

  /** A line of encodable fields whose first field is not empty, so that it is not blank. */
  predicate EncodableLine(l: seq<string>)
  {
    |l| >= 1 && |l[0]| > 0 && forall k :: 0 <= k < |l| ==> Encodable(l[k])
  }

  /** The first character of such a line is that of its first field. */
  lemma {:induction false} EncodableLineStart(l: seq<string>, rest: string)
    requires EncodableLine(l)
    ensures |Join(l, ',') + "\n" + rest| > 0 && (Join(l, ',') + "\n" + rest)[0] == l[0][0]
  {
    if |l| > 1 {
      assert Join(l, ',') == l[0] + [','] + Join(l[1..], ',');
    }
  }

  /** Lines of encodable fields read back as their records of unquoted texts. */
  lemma {:induction false} RecordsOfLines(ls: seq<seq<string>>)
    requires forall i :: 0 <= i < |ls| ==> EncodableLine(ls[i])
    ensures Records(Lines(ls)) == Ok(seq(|ls|, i requires 0 <= i < |ls| => Unquoted(ls[i])))
    decreases |ls|
  {
    var all := seq(|ls|, i requires 0 <= i < |ls| => Unquoted(ls[i]));
    if |ls| > 0 {
      EncodableLineStart(ls[0], Lines(ls[1..]));
      assert Encodable(ls[0][0]);
      RecordOfEncodable(ls[0], Lines(ls[1..]));
      assert forall i :: 0 <= i < |ls| - 1 ==> ls[1..][i] == ls[i + 1];
      RecordsOfLines(ls[1..]);
      assert all == [Unquoted(ls[0])] + seq(|ls| - 1, i requires 0 <= i < |ls| - 1 => Unquoted(ls[1..][i]));
    } else {
      assert all == [];
    }
  }

  // ---------------------------------------------------------------------------------
  // Row widths

  /** The width the first data row sets: the header's, or more when that row is wider,
      the extra leading fields then becoming the index. */
  function RowWidth(header: seq<string>, rows: seq<seq<string>>): (w: nat)
    ensures w >= |header|
  {
    if |rows| > 0 && |rows[0]| > |header| then |rows[0]| else |header|
  }

  function Pad(row: seq<string>, w: nat): (r: seq<string>)
    requires |row| <= w
    ensures |r| == w && r[..|row|] == row && forall j :: |row| <= j < w ==> r[j] == ""
  {
    row + seq(w - |row|, _ => "")
  }

  /** The data rows laid out under the header: a row wider than the width set by the first
      data row is an error, a shorter row is padded with empty fields, and the leading
      fields beyond the header's width are left out (they form the index). */
  function LayOut(header: seq<string>, rows: seq<seq<string>>): (r: Result<seq<seq<string>>>)
    ensures r.Ok? ==> |r.value| == |rows| && forall i :: 0 <= i < |rows| ==> |r.value[i]| == |header|
    ensures r.Err? ==> r.message == TokenizeError
  {
    var w := RowWidth(header, rows);
    if exists i :: 0 <= i < |rows| && |rows[i]| > w then Err(TokenizeError)
    else Ok(seq(|rows|, i requires 0 <= i < |rows| && |rows[i]| <= w => Pad(rows[i], w)[w - |header|..]))
  }

  /** Field j of laid-out row i is field lead + j of the written row, or empty past its end,
      where lead is how much wider than the header the first data row is. The layout fails
      exactly when some row is wider than the first data row and the header. */
  lemma {:induction false} LayOutSpec(header: seq<string>, rows: seq<seq<string>>)
    ensures var w := RowWidth(header, rows);
            LayOut(header, rows).Ok? <==> forall i :: 0 <= i < |rows| ==> |rows[i]| <= w
    ensures var lead := RowWidth(header, rows) - |header|;
            LayOut(header, rows).Ok? ==> forall i, j :: 0 <= i < |rows| && 0 <= j < |header| ==>
              LayOut(header, rows).value[i][j] == if lead + j < |rows[i]| then rows[i][lead + j] else ""
  {
  }

  /** Rows exactly as wide as the header come through unchanged. */
  lemma {:induction false} LayOutExact(header: seq<string>, rows: seq<seq<string>>)
    requires forall i :: 0 <= i < |rows| ==> |rows[i]| == |header|
    ensures LayOut(header, rows) == Ok(rows)
  {
    LayOutSpec(header, rows);
    assert RowWidth(header, rows) == |header|;
    assert LayOut(header, rows).Ok?;
    var r := LayOut(header, rows).value;
    forall i | 0 <= i < |rows| ensures r[i] == rows[i] {
      forall j | 0 <= j < |header| ensures r[i][j] == rows[i][j] {
        assert 0 + j < |rows[i]|;
      }
    }
    assert r == rows;
  }

  // ---------------------------------------------------------------------------------
  // Missing values and column types

  /** The strings pandas reads as a missing value by default. */
  const NaStrings: set<string> := {"", "#N/A", "#N/A N/A", "#NA", "-1.#IND", "-1.#QNAN", "-NaN",
    "-nan", "1.#IND", "1.#QNAN", "<NA>", "N/A", "NA", "NULL", "NaN", "None", "n/a", "nan", "null"}

  predicate IsNa(t: string) { t in NaStrings }

  /** An integer: an optional sign and at least one digit. */
  function ParseInt(t: string): (r: Option<int>)
    ensures r.Some? ==> |t| > 0
  {
    if |t| > 0 && (t[0] == '-' || t[0] == '+') then
      if |t| > 1 && AllDigits(t[1..]) then
        var v: int := DigitsValue(t[1..]);
        Some(if t[0] == '-' then -v else v)
      else None
    else if |t| > 0 && AllDigits(t) then Some(DigitsValue(t))
    else None
  }

  /** A value pandas reads as a number (sign, digits, at most one decimal point). */
  predicate NumberText(t: string) { ParseInt(t).Some? || ParseDecimal(t).Some? }

  /** Every missing-value string has a letter, '#', '<', '/' or nothing in it, so none is a number. */
  lemma {:induction false} NaIsNotNumeric(t: string)
    requires IsNa(t)
    ensures ParseInt(t).None?
  {
  }

  datatype Kind = IntKind | FloatKind | TextKind

  /** A column of integers with nothing missing is an integer column; a column of numbers
      and missing values is a floating-point one; any other column keeps its texts. */
  function KindOf(texts: seq<string>): Kind
  {
    if forall k :: 0 <= k < |texts| ==> ParseInt(texts[k]).Some? then IntKind
    else if forall k :: 0 <= k < |texts| ==> IsNa(texts[k]) || NumberText(texts[k]) then FloatKind
    else TextKind
  }

  /** A value as the frame holds it: missing, a string, an integer or a float. */
  datatype Cell = Missing | Str(text: string) | Int(i: int) | Float(x: real)

  /** A value converted under its column's type: missing exactly for a missing-value
      string, a number only when it spells that number, otherwise the text itself. */
  function Convert(t: string, kind: Kind): (c: Cell)
    ensures c == Missing <==> IsNa(t)
    ensures c.Str? ==> c.text == t && !(kind == IntKind && ParseInt(t).Some?) && !(kind == FloatKind && NumberText(t))
    ensures c.Int? ==> kind == IntKind && ParseInt(t) == Some(c.i)
    ensures c.Float? ==> kind == FloatKind && NumberText(t)
  {
    if IsNa(t) then Missing
    else if kind == IntKind && ParseInt(t).Some? then Int(ParseInt(t).value)
    else if kind == FloatKind && ParseInt(t).Some? then Float(ParseInt(t).value as real)
    else if kind == FloatKind && ParseDecimal(t).Some? then Float(ParseDecimal(t).value)
    else Str(t)
  }

  function Column(rows: seq<seq<string>>, j: nat): (c: seq<string>)
    requires forall i :: 0 <= i < |rows| ==> j < |rows[i]|
    ensures |c| == |rows| && forall i :: 0 <= i < |rows| ==> c[i] == rows[i][j]
  {
    seq(|rows|, i requires 0 <= i < |rows| => rows[i][j])
  }

  function Typed(rows: seq<seq<string>>, width: nat): (cells: seq<seq<Cell>>)
    requires forall i :: 0 <= i < |rows| ==> |rows[i]| == width
    ensures |cells| == |rows|
    ensures forall i :: 0 <= i < |rows| ==> |cells[i]| == width
    ensures forall i, j :: 0 <= i < |rows| && 0 <= j < width ==>
              cells[i][j] == Convert(rows[i][j], KindOf(Column(rows, j)))
  {
    seq(|rows|, i requires 0 <= i < |rows| =>
      seq(width, j requires 0 <= j < width => Convert(rows[i][j], KindOf(Column(rows, j)))))
  }

  /** A column with one value that is neither missing nor a number holds strings: every
      value is its own text, or missing. */
  lemma {:induction false} TextColumn(rows: seq<seq<string>>, j: nat, i0: nat)
    requires forall i :: 0 <= i < |rows| ==> j < |rows[i]|
    requires i0 < |rows| && !IsNa(rows[i0][j]) && !NumberText(rows[i0][j])
    ensures KindOf(Column(rows, j)) == TextKind
    ensures forall i :: 0 <= i < |rows| ==>
      Convert(rows[i][j], TextKind) == if IsNa(rows[i][j]) then Missing else Str(rows[i][j])
  {
    assert Column(rows, j)[i0] == rows[i0][j];
  }

  /** An integer column gives every value as the integer it spells. */
  lemma {:induction false} IntColumn(rows: seq<seq<string>>, j: nat)
    requires forall i :: 0 <= i < |rows| ==> j < |rows[i]|
    requires forall i :: 0 <= i < |rows| ==> ParseInt(rows[i][j]).Some?
    ensures KindOf(Column(rows, j)) == IntKind
    ensures forall i :: 0 <= i < |rows| ==>
      Convert(rows[i][j], IntKind) == Int(ParseInt(rows[i][j]).value)
  {
    forall i | 0 <= i < |rows| ensures !IsNa(rows[i][j]) {
      if IsNa(rows[i][j]) {
        NaIsNotNumeric(rows[i][j]);
      }
    }
  }

  // ---------------------------------------------------------------------------------
  // The frame

  /** The column names and the rows of values. */
  datatype Frame = Frame(columns: seq<string>, rows: seq<seq<Cell>>)

  /** The frame of a header and the data records that follow it. */
  function FrameOf(header: seq<string>, records: seq<seq<string>>): (r: Result<Frame>)
    ensures r.Ok? ==> r.value.columns == header && |r.value.rows| == |records|
    ensures r.Ok? ==> forall i :: 0 <= i < |records| ==> |r.value.rows[i]| == |header|
    ensures r.Err? ==> r.message == TokenizeError
  {
    match LayOut(header, records)
    case Err(e) => Err(e)
    case Ok(rows) => Ok(Frame(header, Typed(rows, |header|)))
  }

  /** pd.read_csv(file): the first record names the columns. */
  function ReadCsv(text: string): (r: Result<Frame>)
    ensures r.Ok? ==> forall i :: 0 <= i < |r.value.rows| ==> |r.value.rows[i]| == |r.value.columns|
    ensures r.Err? ==> r.message == TokenizeError || r.message == NoColumns
  {
    match Records(text)
    case Err(e) => Err(e)
    case Ok(records) =>
      if |records| == 0 then Err(NoColumns) else FrameOf(records[0], records[1..])
  }

  /** A header line of encodable names, then the data: the names, unquoted, become the
      columns and the data records the rows. */
  lemma {:induction false} ReadCsvAfterHeader(header: seq<string>, body: string)
    requires EncodableLine(header)
    ensures ReadCsv(Join(header, ',') + "\n" + body) ==
      match Records(body)
      case Err(e) => Err(e)
      case Ok(records) => FrameOf(Unquoted(header), records)
  {
    var s := Join(header, ',') + "\n" + body;
    EncodableLineStart(header, body);
    assert Encodable(header[0]);
    RecordOfEncodable(header, body);
    match Records(body)
    case Err(e) =>
    case Ok(records) =>
      assert Records(s) == Ok([Unquoted(header)] + records);
      assert ([Unquoted(header)] + records)[1..] == records;
  }
}
