/** Creation of the boundary-conditions table from an IDF 3.0 board file and its library
    file (pages/01_Create_Boundary_Conditions_File.py). Files are sequences of lines; the
    table is a sequence of rows. */
module BcFile {
  import opened Results
  import opened Text
  import opened Csv

  const PlacementTag := ".PLACEMENT"
  const EndPlacementTag := ".END_PLACEMENT"
  const ElectricalTag := ".ELECTRICAL"
  const EmptyQuoted := "\"\""
  const NoPartName := "NOPARTNAME"
  const Thou := "THOU"
  /** Millimetres per thousandth of an inch. */
  const ThouToMm: real := 0.0254

  /** Python's line.strip(). */
  function StripLine(line: string): string { Strip(line, Whitespace) }

  /** Every line of a file, stripped. */
  function StripLines(lines: seq<string>): (r: seq<string>)
    ensures |r| == |lines|
  {
    if |lines| == 0 then [] else [StripLine(lines[0])] + StripLines(lines[1..])
  }

  lemma {:induction false} StripLinesAt(lines: seq<string>, k: nat)
    requires k < |lines|
    ensures StripLines(lines)[k] == StripLine(lines[k])
  {
    if k > 0 {
      StripLinesAt(lines[1..], k - 1);
    }
  }

  // ---------------------------------------------------------------------------------
  // The .PLACEMENT section of the board file

  /** Index of the first stripped line at or after `from` that is `tag`, or |ts|. */
  function FirstTagged(ts: seq<string>, tag: string, from: nat): (k: nat)
    requires from <= |ts|
    ensures from <= k <= |ts|
    ensures k < |ts| ==> ts[k] == tag
    ensures forall i :: from <= i < k ==> ts[i] != tag
    decreases |ts| - from
  {
    if from == |ts| || ts[from] == tag then from
    else FirstTagged(ts, tag, from + 1)
  }

  /** A scan position that satisfies FirstTagged's contract is its result. */
  lemma {:induction false} FirstTaggedAt(ts: seq<string>, tag: string, from: nat, k: nat)
    requires from <= k <= |ts|
    requires k < |ts| ==> ts[k] == tag
    requires forall i :: from <= i < k ==> ts[i] != tag
    ensures FirstTagged(ts, tag, from) == k
    decreases k - from
  {
    if from < k {
      FirstTaggedAt(ts, tag, from + 1, k);
    }
  }

  /** Of a file's stripped lines `ts`: those after the first .PLACEMENT line and before
      the next .END_PLACEMENT line (or the end of the file). */
  function PlacementBlock(ts: seq<string>): seq<string>
  {
    var start := FirstTagged(ts, PlacementTag, 0);
    if start == |ts| then [] else ts[start + 1..FirstTagged(ts, EndPlacementTag, start + 1)]
  }

  /** The first loop over the file iterator: skip lines until `tag`. */
  method SkipUntil(ts: seq<string>, tag: string) returns (i: nat)
    ensures i == FirstTagged(ts, tag, 0)
  {
    i := 0;
    while i < |ts| && ts[i] != tag
      invariant i <= |ts|
      invariant forall k :: 0 <= k < i ==> ts[k] != tag
    {
      i := i + 1;
    }
    FirstTaggedAt(ts, tag, 0, i);
  }

  /** The second loop over the same iterator: collect lines from `from` until `tag`. */
  method CollectUntil(ts: seq<string>, from: nat, tag: string) returns (block: seq<string>)
    requires from <= |ts|
    ensures block == ts[from..FirstTagged(ts, tag, from)]
  {
    block := [];
    var j := from;
    while j < |ts| && ts[j] != tag
      invariant from <= j <= |ts|
      invariant forall k :: from <= k < j ==> ts[k] != tag
      invariant block == ts[from..j]
    {
      assert ts[from..j + 1] == ts[from..j] + [ts[j]];
      block := block + [ts[j]];
      j := j + 1;
    }
    FirstTaggedAt(ts, tag, from, j);
  }

  /** The two loops over one file iterator (lines 143-150): skip up to .PLACEMENT, then
      collect stripped lines up to .END_PLACEMENT. */
  method ExtractPlacement(lines: seq<string>) returns (components: seq<string>)
    ensures components == PlacementBlock(StripLines(lines))
  {
    var ts := StripLines(lines);
    var start := SkipUntil(ts, PlacementTag);
    components := [];
    if start < |ts| {
      components := CollectUntil(ts, start + 1, EndPlacementTag);
    }
  }

  /** Without a .PLACEMENT line nothing is collected. */
  lemma {:induction false} NoPlacementTag(ts: seq<string>)
    requires PlacementTag !in ts
    ensures PlacementBlock(ts) == []
  {
    FirstTaggedAt(ts, PlacementTag, 0, |ts|);
  }

  /** With the first .PLACEMENT line at `start`, exactly the lines strictly between it and
      the next .END_PLACEMENT line are collected, in file order. */
  lemma {:induction false} PlacementBlockContents(ts: seq<string>, start: nat)
    requires start < |ts| && ts[start] == PlacementTag
    requires PlacementTag !in ts[..start]
    ensures var block := PlacementBlock(ts);
      && start + 1 + |block| <= |ts|
      && block == ts[start + 1..start + 1 + |block|]
      && EndPlacementTag !in block
      && (start + 1 + |block| == |ts| || ts[start + 1 + |block|] == EndPlacementTag)
  {
    assert forall i :: 0 <= i < start ==> ts[..start][i] == ts[i];
    FirstTaggedAt(ts, PlacementTag, 0, start);
  }

  /** components[::2]: the name lines. */
  function Evens(s: seq<string>): (r: seq<string>)
    ensures |r| == (|s| + 1) / 2
    ensures forall k :: 0 <= k < |r| ==> r[k] == s[2 * k]
    decreases |s|
  {
    if |s| <= 1 then s else [s[0]] + Evens(s[2..])
  }

  /** components[1::2]: the placement lines. */
  function Odds(s: seq<string>): (r: seq<string>)
    ensures |r| == |s| / 2
    ensures forall k :: 0 <= k < |r| ==> r[k] == s[2 * k + 1]
  {
    if |s| <= 1 then [] else Evens(s[1..])
  }

  // ---------------------------------------------------------------------------------
  // Tokens of a name line (lines 156-161, also 208-213)

  /** The tokens as the source finds them: with '""' at an index above 0 the quoted
      alternative is `".+?`, otherwise `".+?"`. */
  function NameTokensAsWritten(line: string): seq<string>
  {
    FindAll(line, RuleAsWritten(line))
  }

  /** The quoted alternative the source picks for a line. */
  function RuleAsWritten(line: string): QuoteRule
  {
    if FindEmptyQuotes(line, 0) > 0 then Open else Closed
  }

  /** The tokens with the corrected pattern `[^"\s]\S*|".*?"`, which reads an empty quoted
      name and a quoted name alike. */
  function NameTokens(line: string): seq<string>
  {
    FindAll(line, ClosedOrEmpty)
  }

  /** A name line whose package name is quoted and whose part name is '""': as written the
      package name is cut after its first character, so the tokens no longer line up and the
      empty part name is not the second token; the corrected tokenizer reads every name. */
  lemma {:induction false} QuotedPackageSplit(tokens: seq<string>)
    requires |tokens| >= 2
    requires forall k :: 0 <= k < |tokens| ==> WellFormedToken(tokens[k])
    requires |tokens[0]| >= 3 && tokens[0][0] == '"'
    requires tokens[1] == EmptyQuoted
    ensures NameTokens(Join(tokens, ' ')) == tokens
    ensures |NameTokensAsWritten(Join(tokens, ' '))| >= 1
    ensures NameTokensAsWritten(Join(tokens, ' '))[0] == tokens[0][..2] != tokens[0]
  {
    FindAllJoin(tokens);
    var line := Join(tokens, ' ');
    var t := tokens[0];
    assert line == t + [' '] + Join(tokens[1..], ' ');
    assert Join(tokens[1..], ' ')[..2] == EmptyQuoted;
    var at := |t| + 1;
    assert line[at] == '"' && line[at + 1] == '"';
    assert line[0] == t[0] && line[1] == t[1];
    assert t[1] != '"';
    assert FindEmptyQuotes(line, 0) > 0;
    assert QuotedLength(line, Open) == Some(2);
    assert line[..2] == t[..2];
  }

  /** A name line holding only '""' and a designator: as written the quotes start no token,
      so the line has one token and indexing its second one raises. */
  lemma {:induction false} EmptyPartNameOnlyRaises()
    ensures NameTokensAsWritten("\"\" U1") == ["U1"]
    ensures NamedTokens("\"\" U1") == Err(IndexOutOfRange)
  {
    assert FindEmptyQuotes("\"\" U1", 0) == 0;
    LoneEmptyQuotesSkipped();
  }

  /** On a line without '""' the tokenizer as written agrees with the corrected one. */
  lemma {:induction false} NameTokensAgree(line: string)
    requires NoEmptyQuotes(line)
    ensures NameTokensAsWritten(line) == NameTokens(line)
  {
    ClosedAgreesWithoutEmptyQuotes(line);
  }

  /** n = tokens; n[1] == '""' becomes NOPARTNAME; n[1] raises when there is no second token. */
  function NamedTokens(line: string): (r: Result<seq<string>>)
    ensures r.Ok? <==> |NameTokensAsWritten(line)| >= 2
    ensures r.Err? ==> r.message == IndexOutOfRange
    ensures r.Ok? ==> |r.value| == |NameTokensAsWritten(line)|
    ensures r.Ok? ==> r.value[1] == if NameTokensAsWritten(line)[1] == EmptyQuoted then NoPartName else NameTokensAsWritten(line)[1]
    ensures r.Ok? ==> forall k :: 0 <= k < |r.value| && k != 1 ==> r.value[k] == NameTokensAsWritten(line)[k]
  {
    var n := NameTokensAsWritten(line);
    if |n| < 2 then Err(IndexOutOfRange)
    else if n[1] == EmptyQuoted then Ok(n[1 := NoPartName])
    else Ok(n)
  }

  /** p = list(filter(None, line.split(' ')))[4]: the placement side. */
  function PlacementSide(line: string): Result<string>
  {
    var p := NonEmpty(Split(line, ' '));
    if |p| < 5 then Err(IndexOutOfRange) else Ok(p[4])
  }

  lemma {:induction false} NonEmptyKeepsNonEmpty(xs: seq<string>)
    requires forall k :: 0 <= k < |xs| ==> xs[k] != ""
    ensures NonEmpty(xs) == xs
  {
    if |xs| > 0 {
      NonEmptyKeepsNonEmpty(xs[1..]);
      assert xs == [xs[0]] + xs[1..];
    }
  }

  /** A placement line written as non-empty space-free fields separated by spaces yields
      its fifth field as the side. */
  lemma {:induction false} PlacementSideOfFields(fields: seq<string>)
    requires |fields| >= 5
    requires forall k :: 0 <= k < |fields| ==> fields[k] != "" && ' ' !in fields[k]
    ensures PlacementSide(Join(fields, ' ')) == Ok(fields[4])
  {
    SplitJoin(fields, ' ');
    NonEmptyKeepsNonEmpty(fields);
  }

  /** One record: the name tokens followed by the placement side (lines 155-165). */
  function ParseComponents(names: seq<string>, places: seq<string>): (r: Result<seq<seq<string>>>)
    ensures r.Ok? ==> |r.value| == |names|
    ensures r.Err? ==> r.message == IndexOutOfRange
    decreases |names|
  {
    if |names| == 0 then Ok([])
    else
      match NamedTokens(names[0])
      case Err(e) => Err(e)
      case Ok(n) =>
        if |places| == 0 then Err(IndexOutOfRange)
        else
          match PlacementSide(places[0])
          case Err(e) => Err(e)
          case Ok(p) =>
            match ParseComponents(names[1..], places[1..])
            case Err(e) => Err(e)
            case Ok(rest) => Ok([n + [p]] + rest)
  }

  /** Record i of a successful parse: the tokens of name line i and the side of placement line i. */
  lemma {:induction false} ParseComponentsAt(names: seq<string>, places: seq<string>, i: nat)
    requires ParseComponents(names, places).Ok?
    requires i < |names|
    ensures PairParsable(names, places, i)
    ensures ParseComponents(names, places).value[i] == NamedTokens(names[i]).value + [PlacementSide(places[i]).value]
    decreases |names|
  {
    if i > 0 {
      ParseComponentsAt(names[1..], places[1..], i - 1);
      assert names[1..][i - 1] == names[i] && places[1..][i - 1] == places[i];
    }
  }

  /** The designator loop (lines 155-165): one record per name line, the first failing line raising. */
  method ParseDesignators(names: seq<string>, places: seq<string>) returns (r: Result<seq<seq<string>>>)
    ensures r == ParseComponents(names, places)
  {
    var designators: seq<seq<string>> := [];
    var i := 0;
    while i < |names|
      invariant 0 <= i <= |names|
      invariant |designators| == i
      invariant forall k :: 0 <= k < i ==> RecordOfPair(names, places, k, designators[k])
    {
      var n := NamedTokens(names[i]);
      if n.Err? || i >= |places| {
        ParseComponentsFails(names, places, i);
        return Err(IndexOutOfRange);
      }
      var p := PlacementSide(places[i]);
      if p.Err? {
        ParseComponentsFails(names, places, i);
        return Err(IndexOutOfRange);
      }
      assert RecordOfPair(names, places, i, n.value + [p.value]);
      designators := designators + [n.value + [p.value]];
      i := i + 1;
    }
    assert Parsable(names, places) by {
      forall k | 0 <= k < |names| ensures PairParsable(names, places, k) {
        assert RecordOfPair(names, places, k, designators[k]);
      }
    }
    ParseComponentsOk(names, places);
    var parsed := ParseComponents(names, places).value;
    forall k | 0 <= k < |names| ensures parsed[k] == designators[k] {
      assert RecordOfPair(names, places, k, designators[k]);
      ParseComponentsAt(names, places, k);
    }
    assert parsed == designators;
    return Ok(designators);
  }

  /** One pair that cannot be parsed makes the whole parse fail. */
  lemma {:induction false} ParseComponentsFails(names: seq<string>, places: seq<string>, i: nat)
    requires i < |names| && !PairParsable(names, places, i)
    ensures ParseComponents(names, places) == Err(IndexOutOfRange)
  {
    ParseComponentsOk(names, places);
  }

  /** Parsing fails exactly when some name line has fewer than two tokens, some name line
      has no placement line after it, or some placement line has fewer than five fields. */
  lemma {:induction false} ParseComponentsOk(names: seq<string>, places: seq<string>)
    ensures ParseComponents(names, places).Ok? <==> Parsable(names, places)
    decreases |names|
  {
    if |names| == 0 {
    } else if |places| == 0 || NamedTokens(names[0]).Err? || PlacementSide(places[0]).Err? {
      assert !PairParsable(names, places, 0);
    } else {
      ParseComponentsOk(names[1..], places[1..]);
      assert Parsable(names, places) <==> Parsable(names[1..], places[1..]) by {
        if Parsable(names, places) {
          forall i | 0 <= i < |names| - 1 ensures PairParsable(names[1..], places[1..], i) {
            assert PairParsable(names, places, i + 1);
          }
        }
        if Parsable(names[1..], places[1..]) {
          forall i | 0 <= i < |names| ensures PairParsable(names, places, i) {
            if i > 0 {
              assert PairParsable(names[1..], places[1..], i - 1);
            }
          }
        }
      }
    }
  }

  /** The record built from name line i and placement line i. */
  predicate RecordOfPair(names: seq<string>, places: seq<string>, i: nat, d: seq<string>)
    requires i < |names|
  {
    PairParsable(names, places, i) && d == NamedTokens(names[i]).value + [PlacementSide(places[i]).value]
  }

  /** Name line i has a placement line and both give their tokens. */
  predicate PairParsable(names: seq<string>, places: seq<string>, i: nat)
    requires i < |names|
  {
    i < |places| && NamedTokens(names[i]).Ok? && PlacementSide(places[i]).Ok?
  }

  predicate Parsable(names: seq<string>, places: seq<string>)
  {
    forall i :: 0 <= i < |names| ==> PairParsable(names, places, i)
  }

  // ---------------------------------------------------------------------------------
  // Comma sanitising (lines 167-169 and 219-221)

  function SanitizeField(f: string): string { ReplaceChar(f, ',', '_') }

  function SanitizeRecord(fields: seq<string>): (r: seq<string>)
    ensures |r| == |fields|
    ensures forall k :: 0 <= k < |r| ==> r[k] == SanitizeField(fields[k])
  {
    seq(|fields|, k requires 0 <= k < |fields| => SanitizeField(fields[k]))
  }

  function SanitizeAll(records: seq<seq<string>>): (r: seq<seq<string>>)
    ensures |r| == |records|
    ensures forall i :: 0 <= i < |r| ==> r[i] == SanitizeRecord(records[i])
  {
    seq(|records|, i requires 0 <= i < |records| => SanitizeRecord(records[i]))
  }

  /** After sanitising no field holds a comma, every field keeps its length, and only the
      commas changed (each into an underscore). */
  lemma {:induction false} SanitizedRecord(fields: seq<string>, k: nat)
    requires k < |fields|
    ensures var f := SanitizeRecord(fields)[k];
      && ',' !in f
      && |f| == |fields[k]|
      && (forall i :: 0 <= i < |f| && fields[k][i] != ',' ==> f[i] == fields[k][i])
      && (forall i :: 0 <= i < |f| && fields[k][i] == ',' ==> f[i] == '_')
  {
  }

  /** The nested loops that rewrite every field of every record in place. */
  method SanitizeInPlace(a: array<seq<string>>)
    modifies a
    ensures forall i :: 0 <= i < a.Length ==> a[i] == SanitizeRecord(old(a[i]))
  {
    var i := 0;
    while i < a.Length
      invariant 0 <= i <= a.Length
      invariant forall k :: 0 <= k < i ==> a[k] == SanitizeRecord(old(a[k]))
      invariant forall k :: i <= k < a.Length ==> a[k] == old(a[k])
    {
      var j := 0;
      while j < |a[i]|
        invariant 0 <= j <= |a[i]| == |old(a[i])|
        invariant forall m :: 0 <= m < j ==> a[i][m] == SanitizeField(old(a[i])[m])
        invariant forall m :: j <= m < |a[i]| ==> a[i][m] == old(a[i])[m]
        invariant forall k :: 0 <= k < i ==> a[k] == SanitizeRecord(old(a[k]))
        invariant forall k :: i < k < a.Length ==> a[k] == old(a[k])
      {
        a[i] := a[i][j := SanitizeField(a[i][j])];
        j := j + 1;
      }
      i := i + 1;
    }
  }

  // ---------------------------------------------------------------------------------
  // The CSV text (lines 172-179)

  const HeaderColumns := ["Include", "Package_Name", "Part_Name", "Instance_Name", "Placement",
    "BC_Type", "Power [W]", "R_jb [C/W]", "R_jc [C/W]", "Monitor_Point", "Material"]

  /** The header line the source writes: the column names joined by commas. */
  const Header := Join(HeaderColumns, ',') + "\n"

  /** The defaults written after the record fields. */
  const RowDefaults := ["block", "0", "0", "0", "NO", "Ceramic_material"]

  /** The defaults after the record fields as one piece of text. */
  const RowTail := "block,0,0,0,NO,Ceramic_material"

  /** 'YES,' + ','.join(record) + ',block,0,0,0,NO,Ceramic_material\n' */
  function EmitRow(fields: seq<string>): string
  {
    "YES," + Join(fields, ',') + "," + RowTail + "\n"
  }

  lemma {:induction false} JoinAppend(a: seq<string>, b: seq<string>, sep: char)
    requires |a| >= 1 && |b| >= 1
    ensures Join(a + b, sep) == Join(a, sep) + [sep] + Join(b, sep)
    decreases |a|
  {
    if |a| == 1 {
      assert (a + b)[1..] == b;
    } else {
      JoinAppend(a[1..], b, sep);
      assert (a + b)[1..] == a[1..] + b;
    }
  }

  /** The literal tail of a row is the six defaults joined by commas. */
  lemma {:induction false} RowDefaultsJoin()
    ensures Join(RowDefaults, ',') == RowTail
  {
  }

  lemma {:induction false} EmitRowPieces(fields: seq<string>)
    ensures EmitRow(fields) == "YES" + [','] + Join(fields, ',') + [','] + RowTail + "\n"
  {
    assert "YES," == "YES" + [','];
  }

  lemma {:induction false} EmitRowJoins(fields: seq<string>)
    requires |fields| >= 1
    ensures EmitRow(fields) == Join(["YES"] + fields + RowDefaults, ',') + "\n"
  {
    RowDefaultsJoin();
    EmitRowPieces(fields);
    JoinAppend(["YES"], fields, ',');
    JoinAppend(["YES"] + fields, RowDefaults, ',');
  }

  /** The fields a record is written as: "YES", the record, the defaults. */
  function WrittenFields(record: seq<string>): (w: seq<string>)
    ensures |w| == |record| + 7
  {
    ["YES"] + record + RowDefaults
  }

  /** The rows written after the header, one per record. */
  function RowsText(records: seq<seq<string>>): string
  {
    if |records| == 0 then "" else EmitRow(records[0]) + RowsText(records[1..])
  }

  /** The whole file written at lines 172-179. */
  function CsvText(records: seq<seq<string>>): string { Header + RowsText(records) }

  /** The written rows are the records' written fields, joined, one line each. */
  lemma {:induction false} RowsTextLines(records: seq<seq<string>>)
    requires forall i :: 0 <= i < |records| ==> |records[i]| >= 1
    ensures RowsText(records) == Lines(seq(|records|, i requires 0 <= i < |records| => WrittenFields(records[i])))
    decreases |records|
  {
    var ls := seq(|records|, i requires 0 <= i < |records| => WrittenFields(records[i]));
    if |records| > 0 {
      EmitRowJoins(records[0]);
      RowsTextLines(records[1..]);
      assert ls[1..] == seq(|records| - 1, i requires 0 <= i < |records| - 1 => WrittenFields(records[1..][i]));
    }
  }

  /** The header names and the defaults are written without quotes, commas or newlines. */
  lemma {:induction false} HeaderAndDefaultsPlain()
    ensures forall k :: 0 <= k < |HeaderColumns| ==> PlainField(HeaderColumns[k])
    ensures forall k :: 0 <= k < |RowDefaults| ==> PlainField(RowDefaults[k])
    ensures PlainField("YES")
  {
  }

  /** Quotes come off only a field that starts and ends with one. */
  lemma {:induction false} PlainUnquoted(ws: seq<string>)
    requires forall k :: 0 <= k < |ws| ==> PlainField(ws[k])
    ensures Unquoted(ws) == ws
  {
    forall k | 0 <= k < |ws| ensures Unquote(ws[k]) == ws[k] {
      assert PlainField(ws[k]);
    }
  }

  /** pd.read_csv of the written file: the header names the eleven columns, and the rows
      are the records the reader finds in the text after the header. */
  lemma {:induction false} ReadWrittenFile(records: seq<seq<string>>)
    ensures ReadCsv(CsvText(records)) ==
      match Records(RowsText(records))
      case Err(e) => Err(e)
      case Ok(rs) => FrameOf(HeaderColumns, rs)
  {
    HeaderAndDefaultsPlain();
    PlainUnquoted(HeaderColumns);
    ReadCsvAfterHeader(HeaderColumns, RowsText(records));
  }

  /** The text of every record as the reader gives it back, when all of its fields are
      plain or quoted: "YES", the fields without their quotes, the defaults. */
  function ReadBack(records: seq<seq<string>>): (rs: seq<seq<string>>)
    ensures |rs| == |records|
    ensures forall i :: 0 <= i < |records| ==> rs[i] == WrittenFields(Unquoted(records[i]))
  {
    seq(|records|, i requires 0 <= i < |records| => WrittenFields(Unquoted(records[i])))
  }

  predicate EncodableRecords(records: seq<seq<string>>)
  {
    forall i :: 0 <= i < |records| ==> |records[i]| >= 1 && forall k :: 0 <= k < |records[i]| ==> Encodable(records[i][k])
  }

  lemma {:induction false} WrittenFieldsEncodable(record: seq<string>)
    requires |record| >= 1 && forall k :: 0 <= k < |record| ==> Encodable(record[k])
    ensures EncodableLine(WrittenFields(record))
    ensures Unquoted(WrittenFields(record)) == WrittenFields(Unquoted(record))
  {
    HeaderAndDefaultsPlain();
    var w := WrittenFields(record);
    forall k | 0 <= k < |w| ensures Encodable(w[k]) && Unquote(w[k]) == WrittenFields(Unquoted(record))[k] {
      if k == 0 {
      } else if k <= |record| {
        assert w[k] == record[k - 1];
      } else {
        assert w[k] == RowDefaults[k - 1 - |record|];
        assert PlainField(w[k]);
      }
    }
  }

  /** A file of plain or quoted fields reads back record by record, quotes removed. */
  lemma {:induction false} ReadBackRecords(records: seq<seq<string>>)
    requires EncodableRecords(records)
    ensures Records(RowsText(records)) == Ok(ReadBack(records))
  {
    RowsTextLines(records);
    var ls := seq(|records|, i requires 0 <= i < |records| => WrittenFields(records[i]));
    forall i | 0 <= i < |records| ensures EncodableLine(ls[i]) && Unquoted(ls[i]) == ReadBack(records)[i] {
      WrittenFieldsEncodable(records[i]);
    }
    RecordsOfLines(ls);
    assert seq(|ls|, i requires 0 <= i < |ls| => Unquoted(ls[i])) == ReadBack(records);
  }

  /** Four-field records of plain or quoted fields: the frame has the header's columns and,
      per record, the typed values of its read-back text. */
  lemma {:induction false} ReadBackFrame(records: seq<seq<string>>)
    requires AllWidth(records, 4) && EncodableRecords(records)
    ensures ReadCsv(CsvText(records)) == Ok(Frame(HeaderColumns, Typed(ReadBack(records), 11)))
  {
    ReadWrittenFile(records);
    ReadBackRecords(records);
    LayOutExact(HeaderColumns, ReadBack(records));
  }

  // ---------------------------------------------------------------------------------
  // Designator classification (lines 184-199)

  datatype DesignatorType = IntegratedCircuit | Resistor | Capacitor | Inductor | Misc

  /** The text written into the Designator_Type column. */
  function TypeLabel(t: DesignatorType): string
  {
    match t
    case IntegratedCircuit => "INTEGRATED CIRCUIT"
    case Resistor => "RESISTOR"
    case Capacitor => "CAPACITOR"
    case Inductor => "INDUCTOR"
    case Misc => "MISC"
  }

  /** The letter a classified designator starts with. */
  function PrefixLetter(t: DesignatorType): char
    requires t != Misc
  {
    match t
    case IntegratedCircuit => 'U'
    case Resistor => 'R'
    case Capacitor => 'C'
    case Inductor => 'L'
  }

  /** re.match(r'^<letter>\d', refdes). */
  predicate LetterThenDigit(refdes: string, letter: char)
  {
    |refdes| >= 2 && refdes[0] == letter && IsDigit(refdes[1])
  }

  /** The first of U, R, C, L whose letter-digit prefix matches, else MISC. */
  function Classify(refdes: string): (t: DesignatorType)
    ensures t != Misc ==> LetterThenDigit(refdes, PrefixLetter(t))
    ensures t == Misc <==> !(|refdes| >= 2 && refdes[0] in {'U', 'R', 'C', 'L'} && IsDigit(refdes[1]))
  {
    if LetterThenDigit(refdes, 'U') then IntegratedCircuit
    else if LetterThenDigit(refdes, 'R') then Resistor
    else if LetterThenDigit(refdes, 'C') then Capacitor
    else if LetterThenDigit(refdes, 'L') then Inductor
    else Misc
  }

  /** Only the first two characters decide the type. */
  lemma {:induction false} ClassifyByPrefix(refdes: string, rest: string)
    requires |refdes| >= 2
    ensures Classify(refdes[..2] + rest) == Classify(refdes)
  {
    assert (refdes[..2] + rest)[0] == refdes[0] && (refdes[..2] + rest)[1] == refdes[1];
  }

  lemma {:induction false} ClassifyExamples()
    ensures Classify("U3") == IntegratedCircuit
    ensures Classify("R101") == Resistor
    ensures Classify("C7A") == Capacitor
    ensures Classify("L2") == Inductor
    ensures Classify("XYZ1") == Misc
    ensures Classify("U") == Misc && Classify("UA1") == Misc
  {
    assert IsDigit("U3"[1]) && IsDigit("R101"[1]) && IsDigit("C7A"[1]) && IsDigit("L2"[1]);
    assert !IsDigit("UA1"[1]);
  }

  // ---------------------------------------------------------------------------------
  // The library file (lines 203-221)

  /** Each line starting with the tag is followed by the line whose tokens are kept; that
      following line is consumed by next() and not looked at as a tag itself. */
  function EntriesAfter(lines: seq<string>, tag: string): (r: Result<seq<seq<string>>>)
    ensures r.Ok? ==> forall i :: 0 <= i < |r.value| ==> |r.value[i]| >= 2
    ensures r.Err? ==> r.message == NoNextLine || r.message == IndexOutOfRange
    decreases |lines|
  {
    if |lines| == 0 then Ok([])
    else if StartsWith(lines[0], tag) then
      if |lines| == 1 then Err(NoNextLine)
      else
        match NamedTokens(lines[1])
        case Err(e) => Err(e)
        case Ok(n) =>
          match EntriesAfter(lines[2..], tag)
          case Err(e) => Err(e)
          case Ok(rest) => Ok([n] + rest)
    else EntriesAfter(lines[1..], tag)
  }

  /** The library loop of lines 203-214, on the .ELECTRICAL sections. */
  function LibraryEntries(lines: seq<string>): (r: Result<seq<seq<string>>>)
    ensures r.Ok? ==> forall i :: 0 <= i < |r.value| ==> |r.value[i]| >= 2
  {
    EntriesAfter(lines, ElectricalTag)
  }

  /** The positions, from line i on, of the tag lines the loop acts on, in file order. */
  function TagPositions(lines: seq<string>, tag: string, i: nat): (ps: seq<int>)
    requires i <= |lines|
    decreases |lines| - i
  {
    if i == |lines| then []
    else if StartsWith(lines[i], tag) then
      [i] + TagPositions(lines, tag, if i + 2 <= |lines| then i + 2 else |lines|)
    else TagPositions(lines, tag, i + 1)
  }

  /** ps are increasing tag lines from line i on, never adjacent, and every tag line from
      i on is one of them unless the line before it is one (next() consumed it). */
  predicate AreTagPositions(lines: seq<string>, tag: string, i: nat, ps: seq<int>)
  {
    && (forall k :: 0 <= k < |ps| ==> i <= ps[k] < |lines| && StartsWith(lines[ps[k]], tag))
    && (forall k :: 0 <= k < |ps| - 1 ==> ps[k] + 1 < ps[k + 1])
    && (forall p :: i <= p < |lines| && StartsWith(lines[p], tag) ==> p in ps || p - 1 in ps)
  }

  lemma {:induction false} TagPositionsSpec(lines: seq<string>, tag: string, i: nat)
    requires i <= |lines|
    ensures AreTagPositions(lines, tag, i, TagPositions(lines, tag, i))
    decreases |lines| - i
  {
    if i < |lines| {
      if StartsWith(lines[i], tag) {
        var j := if i + 2 <= |lines| then i + 2 else |lines|;
        TagPositionsSpec(lines, tag, j);
        var ps := TagPositions(lines, tag, i);
        var rest := TagPositions(lines, tag, j);
        assert ps == [i] + rest;
        forall k | 0 < k < |ps| ensures i <= ps[k] < |lines| && StartsWith(lines[ps[k]], tag) {
          assert ps[k] == rest[k - 1];
        }
        forall k | 0 <= k < |ps| - 1 ensures ps[k] + 1 < ps[k + 1] {
          assert ps[k + 1] == rest[k];
          if k > 0 { assert ps[k] == rest[k - 1]; }
        }
      } else {
        TagPositionsSpec(lines, tag, i + 1);
        assert TagPositions(lines, tag, i) == TagPositions(lines, tag, i + 1);
      }
    }
  }

  /** The tag at position p has a next line, and that line has at least two tokens. */
  predicate Readable(lines: seq<string>, p: int)
  {
    0 <= p && p + 1 < |lines| && NamedTokens(lines[p + 1]).Ok?
  }

  /** The entry read for the tag at position p. */
  function ReadAt(lines: seq<string>, p: int): seq<string>
    requires Readable(lines, p)
  {
    NamedTokens(lines[p + 1]).value
  }

  /** A line that is not a tag is passed over. */
  lemma {:induction false} EntriesSkip(lines: seq<string>, tag: string, i: nat)
    requires i < |lines| && !StartsWith(lines[i], tag)
    ensures EntriesAfter(lines[i..], tag) == EntriesAfter(lines[i + 1..], tag)
    ensures TagPositions(lines, tag, i) == TagPositions(lines, tag, i + 1)
  {
    var tail := lines[i..];
    assert tail[0] == lines[i];
    assert tail[1..] == lines[i + 1..];
  }

  /** One tag line followed by another line: the entry read from that line comes first. */
  lemma {:induction false} EntriesTag(lines: seq<string>, tag: string, i: nat)
    requires i + 1 < |lines| && StartsWith(lines[i], tag)
    ensures EntriesAfter(lines[i..], tag).Ok? <==> Readable(lines, i) && EntriesAfter(lines[i + 2..], tag).Ok?
    ensures EntriesAfter(lines[i..], tag).Ok? ==>
      EntriesAfter(lines[i..], tag).value == [ReadAt(lines, i)] + EntriesAfter(lines[i + 2..], tag).value
    ensures TagPositions(lines, tag, i) == [i] + TagPositions(lines, tag, i + 2)
  {
    var tail := lines[i..];
    assert tail[0] == lines[i] && tail[1] == lines[i + 1];
    assert tail[2..] == lines[i + 2..];
  }

  /** r holds the entries read at positions ps: it fails exactly when one of them cannot be
      read, and otherwise holds entry k for position k. */
  predicate ReadAtAll(lines: seq<string>, ps: seq<int>, r: Result<seq<seq<string>>>)
  {
    && (r.Ok? <==> forall k :: 0 <= k < |ps| ==> Readable(lines, ps[k]))
    && (r.Ok? ==> |r.value| == |ps| && forall k :: 0 <= k < |ps| ==> r.value[k] == ReadAt(lines, ps[k]))
  }

  /** The entries from line i on, in terms of the tag positions. */
  lemma {:induction false} EntriesFrom(lines: seq<string>, tag: string, i: nat)
    requires i <= |lines|
    ensures ReadAtAll(lines, TagPositions(lines, tag, i), EntriesAfter(lines[i..], tag))
    decreases |lines| - i
  {
    var ps := TagPositions(lines, tag, i);
    if i < |lines| {
      var tail := lines[i..];
      assert tail[0] == lines[i];
      if !StartsWith(lines[i], tag) {
        EntriesSkip(lines, tag, i);
        EntriesFrom(lines, tag, i + 1);
        assert ps == TagPositions(lines, tag, i + 1);
      } else if i + 1 == |lines| {
        assert TagPositions(lines, tag, |lines|) == [];
        assert ps == [i] + [];
        assert |tail| == 1 && !Readable(lines, ps[0]);
      } else {
        EntriesTag(lines, tag, i);
        EntriesFrom(lines, tag, i + 2);
        ReadAtAllCons(lines, i, TagPositions(lines, tag, i + 2),
                      EntriesAfter(lines[i + 2..], tag), EntriesAfter(lines[i..], tag));
      }
    }
  }

  /** Reading at one more position in front. */
  lemma {:induction false} ReadAtAllCons(lines: seq<string>, p: int, ps: seq<int>, r0: Result<seq<seq<string>>>, r: Result<seq<seq<string>>>)
    requires ReadAtAll(lines, ps, r0)
    requires r.Ok? <==> Readable(lines, p) && r0.Ok?
    requires r.Ok? ==> r.value == [ReadAt(lines, p)] + r0.value
    ensures ReadAtAll(lines, [p] + ps, r)
  {
    var qs := [p] + ps;
    ReadableCons(lines, p, ps);
    if r.Ok? {
      forall k | 0 < k < |qs| ensures r.value[k] == ReadAt(lines, qs[k]) {
        assert qs[k] == ps[k - 1];
      }
    }
  }

  /** Every position of [p] + ps is readable exactly when p and every position of ps are. */
  lemma {:induction false} ReadableCons(lines: seq<string>, p: int, ps: seq<int>)
    ensures (forall k :: 0 <= k < |[p] + ps| ==> Readable(lines, ([p] + ps)[k]))
            <==> Readable(lines, p) && forall k :: 0 <= k < |ps| ==> Readable(lines, ps[k])
  {
    var qs := [p] + ps;
    if forall k :: 0 <= k < |ps| ==> Readable(lines, ps[k]) {
      forall k | 0 < k < |qs| ensures Readable(lines, qs[k]) {
        assert qs[k] == ps[k - 1];
      }
    }
    if forall k :: 0 <= k < |qs| ==> Readable(lines, qs[k]) {
      forall k | 0 <= k < |ps| ensures Readable(lines, ps[k]) {
        assert ps[k] == qs[k + 1];
      }
      assert qs[0] == p;
    }
  }


  /** Entry k is read from the line after the k-th tag position; reading fails exactly when
      some tag position is the last line or its next line has fewer than two tokens. */
  lemma {:induction false} LibraryEntriesSpec(lines: seq<string>)
    ensures AreTagPositions(lines, ElectricalTag, 0, TagPositions(lines, ElectricalTag, 0))
    ensures ReadAtAll(lines, TagPositions(lines, ElectricalTag, 0), LibraryEntries(lines))
  {
    assert lines[0..] == lines;
    TagPositionsSpec(lines, ElectricalTag, 0);
    EntriesFrom(lines, ElectricalTag, 0);
  }

  /** Index of the first occurrence of x in xs, or |xs|. */
  function IndexOfFirst(xs: seq<string>, x: string): (i: nat)
    ensures i <= |xs|
    ensures i < |xs| ==> xs[i] == x
    ensures forall k :: 0 <= k < i ==> xs[k] != x
  {
    if |xs| == 0 || xs[0] == x then 0 else 1 + IndexOfFirst(xs[1..], x)
  }

  /** Python's xs.remove(x) on a list that holds x: only the first occurrence goes. */
  function RemoveFirst(xs: seq<string>, x: string): (r: seq<string>)
    requires x in xs
    ensures |r| == |xs| - 1
    ensures multiset(r) == multiset(xs) - multiset{x}
  {
    var i := IndexOfFirst(xs, x);
    assert xs == xs[..i] + [xs[i]] + xs[i + 1..];
    xs[..i] + xs[i + 1..]
  }

  /** for i in comp_hts: i.remove('THOU'), which raises at the first entry without THOU. */
  method RemoveThouInPlace(a: array<seq<string>>) returns (ok: bool)
    modifies a
    ensures ok <==> forall i :: 0 <= i < a.Length ==> Thou in old(a[i])
    ensures ok ==> forall i :: 0 <= i < a.Length ==> Thou in old(a[i]) && a[i] == RemoveFirst(old(a[i]), Thou)
  {
    var i := 0;
    while i < a.Length
      invariant 0 <= i <= a.Length
      invariant forall k :: 0 <= k < i ==> Thou in old(a[k]) && a[k] == RemoveFirst(old(a[k]), Thou)
      invariant forall k :: i <= k < a.Length ==> a[k] == old(a[k])
    {
      if Thou !in a[i] {
        return false;
      }
      a[i] := RemoveFirst(a[i], Thou);
      i := i + 1;
    }
    return true;
  }

  /** The entries with their THOU removed, or None when some entry has none. */
  function DropThou(entries: seq<seq<string>>): (r: Option<seq<seq<string>>>)
    ensures r.Some? <==> forall i :: 0 <= i < |entries| ==> Thou in entries[i]
    ensures r.Some? ==> |r.value| == |entries|
  {
    if forall i :: 0 <= i < |entries| ==> Thou in entries[i] then
      Some(seq(|entries|, i requires 0 <= i < |entries| => RemoveFirst(entries[i], Thou)))
    else None
  }

  // ---------------------------------------------------------------------------------
  // Heights by part name (lines 223-228)

  /** i[1] == part_names[j]: a library name equals a part name only when the frame holds
      that part name as the same string. */
  predicate Matches(entry: seq<string>, part: Option<string>) { |entry| >= 2 && part == Some(entry[1]) }

  /** float(entry[2]) * 0.0254, or 0 where the entry cannot give a height. */
  function EntryHeight(entry: seq<string>): real
  {
    if |entry| >= 3 && ParseDecimal(entry[2]).Some? then ParseDecimal(entry[2]).value * ThouToMm else 0.0
  }

  /** An entry is compared with every part (entry[1] raises if it is short) and its
      height is converted for each part it matches (entry[2] and float() may raise). */
  predicate Usable(entry: seq<string>, parts: seq<Option<string>>)
  {
    && (|parts| == 0 || |entry| >= 2)
    && (|entry| >= 2 && Some(entry[1]) in parts ==> |entry| >= 3 && ParseDecimal(entry[2]).Some?)
  }

  /** The inner loop over the parts, from part j on, for one library entry. */
  function ApplyEntry(entry: seq<string>, parts: seq<Option<string>>, h: seq<real>, j: nat): (r: Result<seq<real>>)
    requires |h| == |parts| && j <= |parts|
    ensures r.Ok? ==> |r.value| == |parts|
    decreases |parts| - j
  {
    if j == |parts| then Ok(h)
    else if |entry| < 2 then Err(IndexOutOfRange)
    else if parts[j] == Some(entry[1]) then
      if |entry| < 3 then Err(IndexOutOfRange)
      else
        match ParseDecimal(entry[2])
        case None => Err(NotAFloat)
        case Some(v) => ApplyEntry(entry, parts, h[j := v * ThouToMm], j + 1)
    else ApplyEntry(entry, parts, h, j + 1)
  }

  /** The outer loop over the library entries, from a given height list. */
  function HeightsFrom(entries: seq<seq<string>>, parts: seq<Option<string>>, h: seq<real>): (r: Result<seq<real>>)
    requires |h| == |parts|
    ensures r.Ok? ==> |r.value| == |parts|
    decreases |entries|
  {
    if |entries| == 0 then Ok(h)
    else
      match ApplyEntry(entries[0], parts, h, 0)
      case Err(e) => Err(e)
      case Ok(h') => HeightsFrom(entries[1..], parts, h')
  }

  function Zeros(n: nat): (z: seq<real>)
    ensures |z| == n && forall k :: 0 <= k < n ==> z[k] == 0.0
  {
    seq(n, _ => 0.0)
  }

  /** component_height = [0] * n, then every entry against every part. */
  function Heights(entries: seq<seq<string>>, parts: seq<Option<string>>): Result<seq<real>>
  {
    HeightsFrom(entries, parts, Zeros(|parts|))
  }

  /** Index of the last entry that matches part, or -1. */
  function LastMatching(entries: seq<seq<string>>, part: Option<string>): (i: int)
    ensures -1 <= i < |entries|
    ensures i >= 0 ==> Matches(entries[i], part)
    ensures forall k :: i < k < |entries| ==> !Matches(entries[k], part)
    decreases |entries|
  {
    if |entries| == 0 then -1
    else
      var tail := LastMatching(entries[1..], part);
      if tail >= 0 then tail + 1 else if Matches(entries[0], part) then 0 else -1
  }

  /** The height a part ends up with: that of the last matching entry, else 0. */
  function HeightFor(entries: seq<seq<string>>, part: Option<string>, dflt: real): real
  {
    var i := LastMatching(entries, part);
    if i < 0 then dflt else EntryHeight(entries[i])
  }

  lemma {:induction false} ApplyEntrySpec(entry: seq<string>, parts: seq<Option<string>>, h: seq<real>, j: nat)
    requires |h| == |parts| && j <= |parts|
    ensures ApplyEntry(entry, parts, h, j).Ok? <==>
      (j == |parts| || |entry| >= 2) &&
      (|entry| >= 2 && Some(entry[1]) in parts[j..] ==> |entry| >= 3 && ParseDecimal(entry[2]).Some?)
    ensures ApplyEntry(entry, parts, h, j).Ok? ==> forall m :: 0 <= m < |parts| ==>
      ApplyEntry(entry, parts, h, j).value[m] ==
        if j <= m && Matches(entry, parts[m]) then EntryHeight(entry) else h[m]
    decreases |parts| - j
  {
    if j < |parts| && |entry| >= 2 {
      assert parts[j..] == [parts[j]] + parts[j + 1..];
      if parts[j] == Some(entry[1]) {
        if |entry| >= 3 && ParseDecimal(entry[2]).Some? {
          ApplyEntrySpec(entry, parts, h[j := ParseDecimal(entry[2]).value * ThouToMm], j + 1);
        }
      } else {
        ApplyEntrySpec(entry, parts, h, j + 1);
      }
    }
  }

  lemma {:induction false} HeightsFromSpec(entries: seq<seq<string>>, parts: seq<Option<string>>, h: seq<real>)
    requires |h| == |parts|
    ensures HeightsFrom(entries, parts, h).Ok? <==> forall i :: 0 <= i < |entries| ==> Usable(entries[i], parts)
    ensures HeightsFrom(entries, parts, h).Ok? ==> forall m :: 0 <= m < |parts| ==>
      HeightsFrom(entries, parts, h).value[m] == HeightFor(entries, parts[m], h[m])
    decreases |entries|
  {
    if |entries| > 0 {
      var e := entries[0];
      ApplyEntrySpec(e, parts, h, 0);
      assert parts[0..] == parts;
      assert ApplyEntry(e, parts, h, 0).Ok? <==> Usable(e, parts);
      match ApplyEntry(e, parts, h, 0)
      case Err(_) =>
      case Ok(h') =>
        HeightsFromSpec(entries[1..], parts, h');
        assert (forall i :: 0 <= i < |entries| ==> Usable(entries[i], parts)) <==>
               (forall i :: 0 <= i < |entries| - 1 ==> Usable(entries[1..][i], parts)) by {
          if forall i :: 0 <= i < |entries| - 1 ==> Usable(entries[1..][i], parts) {
            forall i | 0 <= i < |entries| ensures Usable(entries[i], parts) {
              if i > 0 { assert entries[i] == entries[1..][i - 1]; }
            }
          }
        }
    }
  }

  /** The height join: it succeeds exactly when every library entry is usable, and then
      every part gets the height of the LAST entry that names it, or 0 when none does. */
  lemma {:induction false} HeightsSpec(entries: seq<seq<string>>, parts: seq<Option<string>>)
    ensures Heights(entries, parts).Ok? <==> forall i :: 0 <= i < |entries| ==> Usable(entries[i], parts)
    ensures Heights(entries, parts).Ok? ==>
      |Heights(entries, parts).value| == |parts| &&
      forall m :: 0 <= m < |parts| ==> Heights(entries, parts).value[m] == HeightFor(entries, parts[m], 0.0)
  {
    HeightsFromSpec(entries, parts, Zeros(|parts|));
  }

  /** The array loop of lines 224-228. */
  method ComponentHeights(entries: seq<seq<string>>, parts: seq<Option<string>>) returns (r: Result<seq<real>>)
    ensures r == Heights(entries, parts)
  {
    var h := new real[|parts|](_ => 0.0);
    assert h[..] == Zeros(|parts|);
    var i := 0;
    while i < |entries|
      invariant 0 <= i <= |entries| && h.Length == |parts|
      invariant Heights(entries, parts) == HeightsFrom(entries[i..], parts, h[..])
    {
      var e := entries[i];
      assert entries[i..][1..] == entries[i + 1..];
      ghost var before := h[..];
      var j := 0;
      while j < |parts|
        invariant 0 <= j <= |parts|
        invariant ApplyEntry(e, parts, before, 0) == ApplyEntry(e, parts, h[..], j)
      {
        if |e| < 2 {
          return Err(IndexOutOfRange);
        }
        if parts[j] == Some(e[1]) {
          if |e| < 3 {
            return Err(IndexOutOfRange);
          }
          var v := ParseDecimal(e[2]);
          if v.None? {
            return Err(NotAFloat);
          }
          h[j] := v.value * ThouToMm;
        }
        j := j + 1;
      }
      i := i + 1;
    }
    return Ok(h[..]);
  }

  // ---------------------------------------------------------------------------------
  // The table (lines 181-230)

  /** One row of the boundary-conditions table, in its column order: Include,
      Package_Name, Part_Name, Instance_Name, Designator_Type, Height [mm], Placement,
      BC_Type, Power [W], R_jb [C/W], R_jc [C/W], Monitor_Point, Material. All but the two
      inserted columns hold the values pd.read_csv gave. */
  datatype TableRow = TableRow(
    included: Cell, packageName: Cell, partName: Cell, instanceName: Cell,
    designatorType: DesignatorType, heightMm: real, placement: Cell, bcType: Cell,
    power: Cell, rjb: Cell, rjc: Cell, monitorPoint: Cell, material: Cell)

  /** The eleven values of the row as read from the file. */
  function ReadCells(row: TableRow): (cs: seq<Cell>)
    ensures |cs| == 11
  {
    [row.included, row.packageName, row.partName, row.instanceName, row.placement, row.bcType,
     row.power, row.rjb, row.rjc, row.monitorPoint, row.material]
  }

  predicate AllWidth<T>(rows: seq<seq<T>>, n: nat)
  {
    forall i :: 0 <= i < |rows| ==> |rows[i]| == n
  }

  /** The board side: the sanitised records, one per name/placement line pair. */
  function BoardRecords(board: seq<string>): (r: Result<seq<seq<string>>>)
    ensures r.Ok? ==> forall i :: 0 <= i < |r.value| ==> |r.value[i]| >= 3
    ensures r.Err? ==> r.message == IndexOutOfRange
  {
    var block := PlacementBlock(StripLines(board));
    match ParseComponents(Evens(block), Odds(block))
    case Err(e) => Err(e)
    case Ok(records) =>
      RecordsWidth(Evens(block), Odds(block));
      Ok(SanitizeAll(records))
  }

  /** Every parsed record holds at least two name tokens and the side. */
  lemma {:induction false} RecordsWidth(names: seq<string>, places: seq<string>)
    requires ParseComponents(names, places).Ok?
    ensures forall i :: 0 <= i < |names| ==> |ParseComponents(names, places).value[i]| >= 3
  {
    forall i | 0 <= i < |names| ensures |ParseComponents(names, places).value[i]| >= 3 {
      ParseComponentsAt(names, places, i);
    }
  }

  /** df = pd.read_csv(...) of the file written from the records. */
  function BoardFrame(board: seq<string>): (r: Result<Frame>)
    ensures r.Ok? ==> r.value.columns == HeaderColumns && AllWidth(r.value.rows, 11)
    ensures r.Err? ==> r.message in {IndexOutOfRange, TokenizeError}
  {
    match BoardRecords(board)
    case Err(e) => Err(e)
    case Ok(clean) =>
      ReadWrittenFile(clean);
      ReadCsv(CsvText(clean))
  }

  /** The loop over df.iloc[:, 3] (lines 184-199): re.match raises on a value that is not
      a string (a missing value, or a number when the whole column reads as numbers). */
  function DesignatorTypes(rows: seq<seq<Cell>>): (r: Result<seq<DesignatorType>>)
    requires forall i :: 0 <= i < |rows| ==> |rows[i]| > 3
    ensures r.Ok? <==> forall i :: 0 <= i < |rows| ==> rows[i][3].Str?
    ensures r.Ok? ==> |r.value| == |rows| && forall i :: 0 <= i < |rows| ==> r.value[i] == Classify(rows[i][3].text)
    ensures r.Err? ==> r.message == NotAString
    decreases |rows|
  {
    if |rows| == 0 then Ok([])
    else if !rows[0][3].Str? then Err(NotAString)
    else
      match DesignatorTypes(rows[1..])
      case Err(e) =>
        assert exists i :: 0 <= i < |rows| - 1 && !rows[1..][i][3].Str?;
        Err(e)
      case Ok(ts) => Ok([Classify(rows[0][3].text)] + ts)
  }

  /** The loop itself, appending one type per value. */
  method ClassifyDesignators(rows: seq<seq<Cell>>) returns (r: Result<seq<DesignatorType>>)
    requires forall i :: 0 <= i < |rows| ==> |rows[i]| > 3
    ensures r == DesignatorTypes(rows)
  {
    var destype: seq<DesignatorType> := [];
    var i := 0;
    while i < |rows|
      invariant 0 <= i <= |rows|
      invariant |destype| == i
      invariant forall k :: 0 <= k < i ==> rows[k][3].Str? && destype[k] == Classify(rows[k][3].text)
    {
      if !rows[i][3].Str? {
        return Err(NotAString);
      }
      destype := destype + [Classify(rows[i][3].text)];
      i := i + 1;
    }
    assert DesignatorTypes(rows).Ok?;
    assert DesignatorTypes(rows).value == destype;
    return Ok(destype);
  }

  /** A frame value as a key of the height join: only a string can equal a library name. */
  function Key(c: Cell): (k: Option<string>)
    ensures k.Some? <==> c.Str?
  {
    if c.Str? then Some(c.text) else None
  }

  /** df.iloc[:, 2]: the part names, as keys. */
  function PartNames(rows: seq<seq<Cell>>): (r: seq<Option<string>>)
    requires forall i :: 0 <= i < |rows| ==> |rows[i]| > 2
    ensures |r| == |rows| && forall i :: 0 <= i < |r| ==> r[i] == Key(rows[i][2])
  {
    seq(|rows|, i requires 0 <= i < |rows| => Key(rows[i][2]))
  }

  function TableRowOf(cells: seq<Cell>, t: DesignatorType, height: real): (row: TableRow)
    requires |cells| == 11
    ensures ReadCells(row) == cells && row.designatorType == t && row.heightMm == height
  {
    TableRow(cells[0], cells[1], cells[2], cells[3], t, height, cells[4], cells[5], cells[6],
             cells[7], cells[8], cells[9], cells[10])
  }

  function TableRows(rows: seq<seq<Cell>>, types: seq<DesignatorType>, heights: seq<real>): (table: seq<TableRow>)
    requires AllWidth(rows, 11) && |types| == |rows| && |heights| == |rows|
    ensures |table| == |rows|
    ensures forall i :: 0 <= i < |table| ==> table[i] == TableRowOf(rows[i], types[i], heights[i])
  {
    seq(|rows|, i requires 0 <= i < |rows| => TableRowOf(rows[i], types[i], heights[i]))
  }

  /** The library side: the height of every part. */
  function LibraryHeights(library: seq<string>, parts: seq<Option<string>>): (r: Result<seq<real>>)
    ensures r.Ok? ==> |r.value| == |parts|
  {
    match LibraryEntries(library)
    case Err(e) => Err(e)
    case Ok(entries) =>
      match DropThou(entries)
      case None => Err(NotInList)
      case Some(kept) => HeightsFrom(SanitizeAll(kept), parts, Zeros(|parts|))
  }

  /** The whole derivation, from the two files to the table: the records, the file written
      and read back, the designator types, the library heights. */
  function BuildTable(board: seq<string>, library: seq<string>): Result<seq<TableRow>>
  {
    match BoardFrame(board)
    case Err(e) => Err(e)
    case Ok(frame) =>
      match DesignatorTypes(frame.rows)
      case Err(e) => Err(e)
      case Ok(types) =>
        match LibraryHeights(library, PartNames(frame.rows))
        case Err(e) => Err(e)
        case Ok(h) => Ok(TableRows(frame.rows, types, h))
  }

  /** Lines 140-169: the records read from the board file. */
  method ReadBoard(board: seq<string>) returns (r: Result<seq<seq<string>>>)
    ensures r == BoardRecords(board)
  {
    var components := ExtractPlacement(board);
    var parsed := ParseDesignators(Evens(components), Odds(components));
    if parsed.Err? {
      return Err(parsed.message);
    }
    var records := parsed.value;
    var designators := new seq<string>[|records|](i requires 0 <= i < |records| => records[i]);
    assert designators[..] == records;
    SanitizeInPlace(designators);
    var clean := designators[..];
    assert clean == SanitizeAll(records);
    return Ok(clean);
  }

  /** Lines 203-228: the library entries and the height loop. */
  method ReadLibraryHeights(library: seq<string>, parts: seq<Option<string>>) returns (r: Result<seq<real>>)
    ensures r == LibraryHeights(library, parts)
  {
    var scanned := LibraryEntries(library);
    if scanned.Err? {
      return Err(scanned.message);
    }
    var entries := scanned.value;
    var compHts := new seq<string>[|entries|](i requires 0 <= i < |entries| => entries[i]);
    assert compHts[..] == entries;
    var ok := RemoveThouInPlace(compHts);
    if !ok {
      return Err(NotInList);
    }
    assert compHts[..] == DropThou(entries).value;
    ghost var kept := compHts[..];
    SanitizeInPlace(compHts);
    assert compHts[..] == SanitizeAll(kept);
    r := ComponentHeights(compHts[..], parts);
  }

  /** What the page does when Generate is pressed. */
  method GenerateBoundaryConditions(board: seq<string>, library: seq<string>) returns (r: Result<seq<TableRow>>)
    ensures r == BuildTable(board, library)
  {
    var records := ReadBoard(board);
    if records.Err? {
      return Err(records.message);
    }
    var file := CsvText(records.value);
    var df := ReadCsv(file);
    if df.Err? {
      return Err(df.message);
    }
    assert df == BoardFrame(board);
    var types := ClassifyDesignators(df.value.rows);
    if types.Err? {
      return Err(types.message);
    }
    var heights := ReadLibraryHeights(library, PartNames(df.value.rows));
    if heights.Err? {
      return Err(heights.message);
    }
    return Ok(TableRows(df.value.rows, types.value, heights.value));
  }

  /** Record i of the board side comes from name/placement line pair i of the .PLACEMENT
      section, in file order, every field with its commas replaced. */
  lemma {:induction false} BoardRecordsRows(board: seq<string>, i: nat)
    requires BoardRecords(board).Ok?
    requires i < |BoardRecords(board).value|
    ensures var block := PlacementBlock(StripLines(board));
      && |BoardRecords(board).value| == (|block| + 1) / 2
      && 2 * i + 1 < |block|
      && NamedTokens(block[2 * i]).Ok? && PlacementSide(block[2 * i + 1]).Ok?
      && BoardRecords(board).value[i] ==
           SanitizeRecord(NamedTokens(block[2 * i]).value + [PlacementSide(block[2 * i + 1]).value])
  {
    var block := PlacementBlock(StripLines(board));
    ParseComponentsAt(Evens(block), Odds(block), i);
    assert Evens(block)[i] == block[2 * i];
    assert i < |Odds(block)|;
    assert Odds(block)[i] == block[2 * i + 1];
  }

  /** Every row of a built table holds one row of the frame read back from the written
      file, in order; its instance name is a string and decides its type. */
  lemma {:induction false} BuildTableRows(board: seq<string>, library: seq<string>, i: nat)
    requires BuildTable(board, library).Ok?
    requires i < |BuildTable(board, library).value|
    ensures BoardFrame(board).Ok?
    ensures var rows := BoardFrame(board).value.rows;
      var row := BuildTable(board, library).value[i];
      && |BuildTable(board, library).value| == |rows|
      && ReadCells(row) == rows[i]
      && row.instanceName.Str? && row.designatorType == Classify(row.instanceName.text)
  {
    var frame := BoardFrame(board).value;
    var types := DesignatorTypes(frame.rows).value;
    assert BuildTable(board, library).value[i] == TableRowOf(frame.rows[i], types[i], BuildTable(board, library).value[i].heightMm);
  }

  /** The heights in a built table: those of the last library entry naming each part, and 0
      for a part name the frame does not hold as a string. */
  lemma {:induction false} BuildTableHeights(board: seq<string>, library: seq<string>, i: nat)
    requires BuildTable(board, library).Ok?
    requires i < |BuildTable(board, library).value|
    ensures LibraryEntries(library).Ok? && DropThou(LibraryEntries(library).value).Some?
    ensures var kept := SanitizeAll(DropThou(LibraryEntries(library).value).value);
      var row := BuildTable(board, library).value[i];
      && row.heightMm == HeightFor(kept, Key(row.partName), 0.0)
      && (!row.partName.Str? ==> row.heightMm == 0.0)
  {
    var frame := BoardFrame(board).value;
    var kept := SanitizeAll(DropThou(LibraryEntries(library).value).value);
    HeightsSpec(kept, PartNames(frame.rows));
    BuildTableRows(board, library, i);
  }

  /** When every record has four fields, each plain or quoted, the frame has one row per
      record, holding the values typed from the record's unquoted text. */
  lemma {:induction false} BoardFrameEncodable(board: seq<string>)
    requires BoardRecords(board).Ok?
    requires AllWidth(BoardRecords(board).value, 4) && EncodableRecords(BoardRecords(board).value)
    ensures BoardFrame(board) == Ok(Frame(HeaderColumns, Typed(ReadBack(BoardRecords(board).value), 11)))
  {
    ReadBackFrame(BoardRecords(board).value);
  }

  /** In that case the table has one row per record, and a row's type is that of the
      record's unquoted instance name. */
  lemma {:induction false} BuildTableEncodable(board: seq<string>, library: seq<string>, i: nat)
    requires BuildTable(board, library).Ok?
    requires BoardRecords(board).Ok?
    requires AllWidth(BoardRecords(board).value, 4) && EncodableRecords(BoardRecords(board).value)
    requires i < |BoardRecords(board).value|
    ensures |BuildTable(board, library).value| == |BoardRecords(board).value|
    ensures var clean := BoardRecords(board).value;
      var row := BuildTable(board, library).value[i];
      && ReadCells(row) == Typed(ReadBack(clean), 11)[i]
      && row.designatorType == Classify(Unquote(clean[i][2]))
  {
    var clean := BoardRecords(board).value;
    BoardFrameEncodable(board);
    BuildTableRows(board, library, i);
    var texts := ReadBack(clean);
    assert texts[i][3] == Unquote(clean[i][2]);
    var row := BuildTable(board, library).value[i];
    assert row.instanceName == ReadCells(row)[3];
  }

  /** When every part name reads as an integer, the read-back part column holds integers. */
  lemma {:induction false} IntegerReadBackColumn(records: seq<seq<string>>)
    requires AllWidth(records, 4)
    requires forall k :: 0 <= k < |records| ==> ParseInt(Unquote(records[k][1])).Some?
    ensures forall k :: 0 <= k < |records| ==> Typed(ReadBack(records), 11)[k][2].Int?
  {
    var texts := ReadBack(records);
    forall k | 0 <= k < |texts| ensures 2 < |texts[k]| && ParseInt(texts[k][2]).Some? {
      assert texts[k][2] == Unquote(records[k][1]);
    }
    IntColumn(texts, 2);
  }

  /** So the frame's part column holds integers. */
  lemma {:induction false} IntegerPartColumn(board: seq<string>)
    requires BoardRecords(board).Ok?
    requires AllWidth(BoardRecords(board).value, 4) && EncodableRecords(BoardRecords(board).value)
    requires forall k :: 0 <= k < |BoardRecords(board).value| ==> ParseInt(Unquote(BoardRecords(board).value[k][1])).Some?
    ensures BoardFrame(board).Ok?
    ensures forall k :: 0 <= k < |BoardFrame(board).value.rows| ==> BoardFrame(board).value.rows[k][2].Int?
  {
    IntegerReadBackColumn(BoardRecords(board).value);
    BoardFrameEncodable(board);
  }

  /** So no part name equals a library name, and every height stays 0. */
  lemma {:induction false} IntegerPartNamesGetNoHeight(board: seq<string>, library: seq<string>, i: nat)
    requires BuildTable(board, library).Ok?
    requires BoardRecords(board).Ok?
    requires AllWidth(BoardRecords(board).value, 4) && EncodableRecords(BoardRecords(board).value)
    requires forall k :: 0 <= k < |BoardRecords(board).value| ==> ParseInt(Unquote(BoardRecords(board).value[k][1])).Some?
    requires i < |BuildTable(board, library).value|
    ensures BuildTable(board, library).value[i].partName.Int?
    ensures BuildTable(board, library).value[i].heightMm == 0.0
  {
    IntegerPartColumn(board);
    BuildTableRows(board, library, i);
    BuildTableHeights(board, library, i);
  }

  /** A well-formed token (a word, or a quoted name without quotes inside) is still plain
      or quoted once its commas are replaced. */
  lemma {:induction false} SanitizedTokenEncodable(t: string)
    requires WellFormedToken(t)
    ensures Encodable(SanitizeField(t))
  {
    var f := SanitizeField(t);
    assert forall k :: 0 <= k < |f| ==> f[k] != ',';
    if t[0] != '"' {
      assert forall k :: 0 <= k < |t| ==> !IsSpace(t[k]);
      assert forall k :: 0 <= k < |f| ==> f[k] != '\n' by {
        assert '\n' in Whitespace;
      }
      assert PlainField(f);
    } else {
      assert QuotedField(f);
    }
  }

  /** In a line without '""' the second token is not '""'. */
  lemma {:induction false} SecondTokenNotEmptyQuoted(tokens: seq<string>)
    requires |tokens| >= 2
    requires NoEmptyQuotes(Join(tokens, ' '))
    ensures tokens[1] != EmptyQuoted
  {
    var line := Join(tokens, ' ');
    var rest := Join(tokens[1..], ' ');
    assert line == tokens[0] + [' '] + rest;
    if |tokens[1]| == 2 {
      if |tokens| > 2 {
        assert rest == tokens[1] + [' '] + Join(tokens[2..], ' ') by {
          assert tokens[1..][1..] == tokens[2..];
        }
      }
      var at := |tokens[0]| + 1;
      assert line[at] == tokens[1][0] && line[at + 1] == tokens[1][1];
      assert !(line[at] == '"' && line[at + 1] == '"');
    }
  }

  /** A name line of well-formed tokens without '""' keeps all its tokens. */
  lemma {:induction false} WellFormedNameLine(tokens: seq<string>)
    requires |tokens| >= 2
    requires forall k :: 0 <= k < |tokens| ==> WellFormedToken(tokens[k])
    requires NoEmptyQuotes(Join(tokens, ' '))
    ensures NamedTokens(Join(tokens, ' ')) == Ok(tokens)
  {
    TokensAsWrittenOfJoin(tokens);
    SecondTokenNotEmptyQuoted(tokens);
    NamedTokensKeep(Join(tokens, ' '), tokens);
  }

  /** A line whose second token is not '""' keeps the tokens it is read as. */
  lemma {:induction false} NamedTokensKeep(line: string, tokens: seq<string>)
    requires NameTokensAsWritten(line) == tokens
    requires |tokens| >= 2 && tokens[1] != EmptyQuoted
    ensures NamedTokens(line) == Ok(tokens)
  {
  }

  /** The code's tokenizer reads such a line back as its tokens. */
  lemma {:induction false} TokensAsWrittenOfJoin(tokens: seq<string>)
    requires |tokens| >= 1
    requires forall k :: 0 <= k < |tokens| ==> WellFormedToken(tokens[k])
    requires NoEmptyQuotes(Join(tokens, ' '))
    ensures NameTokensAsWritten(Join(tokens, ' ')) == tokens
  {
    FindAllJoin(tokens);
    NameTokensAgree(Join(tokens, ' '));
  }

  /** A quoted designator is read back without its quotes: '"U3"' is an integrated circuit. */
  lemma {:induction false} QuotedDesignatorExample()
    ensures Encodable(SanitizeField("\"U3\""))
    ensures Classify(Unquote(SanitizeField("\"U3\""))) == IntegratedCircuit
    ensures Classify(SanitizeField("\"U3\"")) == Misc
  {
    assert SanitizeField("\"U3\"") == "\"U3\"";
    assert Unquote("\"U3\"") == "U3";
    ClassifyExamples();
  }

  // ---------------------------------------------------------------------------------
  // The grid's column edit policy (lines 241-267)

  datatype CellEditor = ReadOnly | FreeText | Numeric | Dropdown(choices: seq<string>)

  const YesNo := ["YES", "NO"]
  const BcTypes := ["block", "network", "hollow"]

  /** How the grid lets each column be edited; `materials` is the first column of the
      materials file when one was selected. */
  function ColumnEditor(column: string, materials: Option<seq<string>>): CellEditor
  {
    if column == "Include" || column == "Monitor_Point" then Dropdown(YesNo)
    else if column in {"Package_Name", "Part_Name", "Instance_Name", "Placement"} then ReadOnly
    else if column == "BC_Type" then Dropdown(BcTypes)
    else if column in {"Power [W]", "R_jb [C/W]", "R_jc [C/W]"} then Numeric
    else if column == "Material" && materials.Some? then Dropdown(materials.value)
    else FreeText
  }

  predicate Accepts(editor: CellEditor, value: string)
  {
    match editor
    case ReadOnly => false
    case FreeText => true
    case Numeric => true
    case Dropdown(choices) => value in choices
  }

  datatype Edit = Edit(column: nat, value: string)

  /** One cell edit of a row whose cells sit under `columns`: taken when the column's
      editor accepts the value, ignored otherwise. */
  function EditCell(cells: seq<string>, columns: seq<string>, edit: Edit, materials: Option<seq<string>>): (r: seq<string>)
    requires |cells| == |columns|
    ensures |r| == |cells|
  {
    if edit.column < |cells| && Accepts(ColumnEditor(columns[edit.column], materials), edit.value)
    then cells[edit.column := edit.value]
    else cells
  }

  function ApplyEdits(cells: seq<string>, columns: seq<string>, edits: seq<Edit>, materials: Option<seq<string>>): (r: seq<string>)
    requires |cells| == |columns|
    ensures |r| == |cells|
    decreases |edits|
  {
    if |edits| == 0 then cells
    else ApplyEdits(EditCell(cells, columns, edits[0], materials), columns, edits[1..], materials)
  }

  /** A cell that satisfies its column's policy: read-only cells are what they were,
      dropdown cells hold one of the choices. */
  predicate CellKept(original: string, cell: string, editor: CellEditor)
  {
    match editor
    case ReadOnly => cell == original
    case Dropdown(choices) => original in choices ==> cell in choices
    case FreeText => true
    case Numeric => true
  }

  /** However many edits are made, identity columns never change and enumerated columns
      keep a value from their enumeration. */
  lemma {:induction false} EditsKeepPolicy(cells: seq<string>, columns: seq<string>, edits: seq<Edit>, materials: Option<seq<string>>)
    requires |cells| == |columns|
    ensures forall k :: 0 <= k < |cells| ==>
      CellKept(cells[k], ApplyEdits(cells, columns, edits, materials)[k], ColumnEditor(columns[k], materials))
    decreases |edits|
  {
    if |edits| > 0 {
      var next := EditCell(cells, columns, edits[0], materials);
      EditsKeepPolicy(next, columns, edits[1..], materials);
      forall k | 0 <= k < |cells|
        ensures CellKept(cells[k], ApplyEdits(cells, columns, edits, materials)[k], ColumnEditor(columns[k], materials))
      {
        var e := ColumnEditor(columns[k], materials);
        assert CellKept(cells[k], next[k], e);
      }
    }
  }
}
