/** The Python string primitives the modelled pages rely on: str.isspace, str.strip,
    str.split, str.join, str.replace of one character, float() of a plain decimal,
    and re.findall of the quote-aware name-line patterns. */
module Text {
  import opened Results

  /** The characters Python's str.isspace() accepts. str.strip() without an argument and
      the regular-expression classes \s and \S of a str pattern use the same set. */
  const Whitespace: set<char> := {
    '\t', '\n', '\U{B}', '\U{C}', '\r', '\U{1C}', '\U{1D}', '\U{1E}', '\U{1F}', ' ',
    '\U{85}', '\U{A0}', '\U{1680}', '\U{2000}', '\U{2001}', '\U{2002}', '\U{2003}',
    '\U{2004}', '\U{2005}', '\U{2006}', '\U{2007}', '\U{2008}', '\U{2009}', '\U{200A}',
    '\U{2028}', '\U{2029}', '\U{202F}', '\U{205F}', '\U{3000}'}

  predicate IsSpace(c: char) { c in Whitespace }

  predicate IsDigit(c: char) { '0' <= c <= '9' }

  /** The set of characters of a Python string, as str.strip(chars) reads its argument. */
  function CharSet(s: string): set<char> { set c | c in s }

  // ---------------------------------------------------------------------------------
  // str.strip(chars)

  /** The first index at or after i whose character is not in cs, or |s|. */
  function SkipFrom(s: string, cs: set<char>, i: nat): (k: nat)
    requires i <= |s|
    ensures i <= k <= |s|
    ensures forall j :: i <= j < k ==> s[j] in cs
    ensures k < |s| ==> s[k] !in cs
    decreases |s| - i
  {
    if i < |s| && s[i] in cs then SkipFrom(s, cs, i + 1) else i
  }

  /** Moving down from j, the index just after the last character not in cs, but no
      lower than lo. */
  function SkipBack(s: string, cs: set<char>, lo: nat, j: nat): (k: nat)
    requires lo <= j <= |s|
    ensures lo <= k <= j
    ensures forall m :: k <= m < j ==> s[m] in cs
    ensures k > lo ==> s[k - 1] !in cs
    decreases j - lo
  {
    if j > lo && s[j - 1] in cs then SkipBack(s, cs, lo, j - 1) else j
  }

  /** Python's s.strip(chars): every character of cs is removed from both ends, whatever
      order the characters come in; it is not the removal of a prefix or a suffix. */
  function Strip(s: string, cs: set<char>): (r: string)
    ensures |r| <= |s|
  {
    var a := SkipFrom(s, cs, 0);
    s[a..SkipBack(s, cs, a, |s|)]
  }

  /** Where the result of Strip(s, cs) begins in s. */
  function StripStart(s: string, cs: set<char>): nat
    ensures StripStart(s, cs) <= |s|
  {
    SkipFrom(s, cs, 0)
  }

  /** The result of Strip is the slice of s that starts at its first character not in cs
      and ends after its last such character; everything cut away is in cs. */
  lemma {:induction false} StripSpec(s: string, cs: set<char>)
    ensures var a, r := StripStart(s, cs), Strip(s, cs);
      && a + |r| <= |s| && r == s[a..a + |r|]
      && (forall k :: 0 <= k < a ==> s[k] in cs)
      && (forall k :: a + |r| <= k < |s| ==> s[k] in cs)
      && (r == [] || (r[0] !in cs && r[|r| - 1] !in cs))
  {
    var a := SkipFrom(s, cs, 0);
    var b := SkipBack(s, cs, a, |s|);
    assert b > a ==> s[a] !in cs;
    assert a + |Strip(s, cs)| == b;
  }

  /** Stripping a second time changes nothing. */
  lemma {:induction false} StripIdempotent(s: string, cs: set<char>)
    ensures Strip(Strip(s, cs), cs) == Strip(s, cs)
  {
    var a := SkipFrom(s, cs, 0);
    var b := SkipBack(s, cs, a, |s|);
    var r := s[a..b];
    if |r| > 0 {
      assert s[a] !in cs && s[b - 1] !in cs;
      assert r[0] !in cs;
      assert SkipFrom(r, cs, 0) == 0;
      assert r[|r| - 1] !in cs;
      assert SkipBack(r, cs, 0, |r|) == |r|;
    }
  }

  /** Characters from cs around a core that begins and ends outside cs are all removed,
      and nothing of the core is. */
  lemma {:induction false} StripFrame(a: string, n: string, b: string, cs: set<char>)
    requires forall k :: 0 <= k < |a| ==> a[k] in cs
    requires forall k :: 0 <= k < |b| ==> b[k] in cs
    requires |n| > 0 && n[0] !in cs && n[|n| - 1] !in cs
    ensures Strip(a + n + b, cs) == n
  {
    var s := a + n + b;
    assert s[|a|] == n[0];
    assert forall k :: 0 <= k < |a| ==> s[k] == a[k];
    var i := SkipFrom(s, cs, 0);
    assert i == |a|;
    assert s[|a| + |n| - 1] == n[|n| - 1];
    assert forall k :: |a| + |n| <= k < |s| ==> s[k] == b[k - |a| - |n|];
    var j := SkipBack(s, cs, i, |s|);
    assert j == |a| + |n|;
    assert s[|a|..|a| + |n|] == n;
  }

  /** Every character of a prefix of s is in CharSet(s). */
  lemma {:induction false} PrefixChars(p: string, s: string)
    requires p <= s
    ensures forall k :: 0 <= k < |p| ==> p[k] in CharSet(s)
  {
    forall k | 0 <= k < |p| ensures p[k] in CharSet(s) {
      assert s[k] == p[k];
    }
  }

  /** Strip with no characters to remove is the identity... */
  lemma {:induction false} StripNothing(s: string)
    ensures Strip(s, {}) == s
  {
  }

  /** ...and a string made only of characters of cs strips to nothing. */
  lemma {:induction false} StripAll(s: string, cs: set<char>)
    requires forall k :: 0 <= k < |s| ==> s[k] in cs
    ensures Strip(s, cs) == []
  {
  }

  // ---------------------------------------------------------------------------------
  // str.split(sep) and str.join

  /** Python's s.split(sep) for a one-character separator: every separator ends a piece,
      so there is always at least one piece and empty pieces are kept. */
  function Split(s: string, sep: char): (r: seq<string>)
    ensures |r| >= 1
    ensures forall k :: 0 <= k < |r| ==> sep !in r[k]
    decreases |s|
  {
    if |s| == 0 then [""]
    else
      var rest := Split(s[1..], sep);
      if s[0] == sep then [""] + rest else [[s[0]] + rest[0]] + rest[1..]
  }

  /** Python's sep.join(parts). */
  function Join(parts: seq<string>, sep: char): string
    decreases |parts|
  {
    if |parts| == 0 then ""
    else if |parts| == 1 then parts[0]
    else parts[0] + [sep] + Join(parts[1..], sep)
  }

  /** Joining the pieces of a split gives the string back. */
  lemma {:induction false} JoinSplit(s: string, sep: char)
    ensures Join(Split(s, sep), sep) == s
    decreases |s|
  {
    if |s| > 0 {
      JoinSplit(s[1..], sep);
      var rest := Split(s[1..], sep);
      assert s == [s[0]] + s[1..];
      if s[0] != sep {
        var pieces := [[s[0]] + rest[0]] + rest[1..];
        assert Split(s, sep) == pieces;
        if |rest| > 1 {
          assert Join(pieces, sep) == [s[0]] + rest[0] + [sep] + Join(rest[1..], sep);
          assert Join(rest, sep) == rest[0] + [sep] + Join(rest[1..], sep);
          assert [s[0]] + rest[0] + [sep] + Join(rest[1..], sep) == [s[0]] + (rest[0] + [sep] + Join(rest[1..], sep));
        } else {
          assert Join(pieces, sep) == [s[0]] + rest[0];
        }
      } else {
        assert Split(s, sep) == [""] + rest;
        assert Join([""] + rest, sep) == "" + [sep] + Join(rest, sep);
      }
    }
  }

  /** A character other than the separator joins the first piece. */
  lemma {:induction false} SplitCons(c: char, s: string, sep: char)
    requires c != sep
    ensures Split([c] + s, sep) == [[c] + Split(s, sep)[0]] + Split(s, sep)[1..]
  {
    assert ([c] + s)[0] == c && ([c] + s)[1..] == s;
  }

  /** A piece without separators glues onto the first piece of what follows it. */
  lemma {:induction false} SplitPrefix(a: string, t: string, sep: char)
    requires sep !in a
    ensures Split(a + t, sep) == [a + Split(t, sep)[0]] + Split(t, sep)[1..]
    decreases |a|
  {
    if |a| > 0 {
      SplitPrefix(a[1..], t, sep);
      var r := Split(t, sep);
      assert a + t == [a[0]] + (a[1..] + t);
      SplitCons(a[0], a[1..] + t, sep);
      assert a == [a[0]] + a[1..];
      assert [a[0]] + (a[1..] + r[0]) == a + r[0];
    } else {
      var r := Split(t, sep);
      assert a + t == t && a + r[0] == r[0];
      assert r == [r[0]] + r[1..];
    }
  }

  /** Splitting what was joined from separator-free pieces gives the pieces back. */
  lemma {:induction false} SplitJoin(parts: seq<string>, sep: char)
    requires |parts| >= 1
    requires forall k :: 0 <= k < |parts| ==> sep !in parts[k]
    ensures Split(Join(parts, sep), sep) == parts
    decreases |parts|
  {
    if |parts| == 1 {
      SplitPrefix(parts[0], "", sep);
      assert parts[0] + "" == parts[0];
    } else {
      SplitJoin(parts[1..], sep);
      var tail := [sep] + Join(parts[1..], sep);
      assert Join(parts, sep) == parts[0] + tail;
      SplitPrefix(parts[0], tail, sep);
      assert tail[1..] == Join(parts[1..], sep);
      assert Split(tail, sep) == [""] + parts[1..];
      assert parts[0] + "" == parts[0];
    }
  }

  /** The non-empty strings of a list, in order: Python's list(filter(None, xs)). */
  function NonEmpty(xs: seq<string>): (r: seq<string>)
    ensures |r| <= |xs|
    ensures forall k :: 0 <= k < |r| ==> r[k] != ""
  {
    if |xs| == 0 then []
    else if xs[0] == "" then NonEmpty(xs[1..])
    else [xs[0]] + NonEmpty(xs[1..])
  }

  // ---------------------------------------------------------------------------------
  // str.replace(a, b) for one character

  /** Python's s.replace(a, b) where a and b are single characters. */
  function ReplaceChar(s: string, a: char, b: char): (r: string)
    ensures |r| == |s|
    ensures forall k :: 0 <= k < |s| && s[k] != a ==> r[k] == s[k]
    ensures forall k :: 0 <= k < |s| && s[k] == a ==> r[k] == b
    ensures a != b ==> a !in r
  {
    if |s| == 0 then "" else [if s[0] == a then b else s[0]] + ReplaceChar(s[1..], a, b)
  }

  // ---------------------------------------------------------------------------------
  // str.startswith, str.find, casefold

  predicate StartsWith(s: string, prefix: string)
  {
    |prefix| <= |s| && s[..|prefix|] == prefix
  }

  /** No two adjacent double quotes anywhere in s. */
  predicate NoEmptyQuotes(s: string)
  {
    forall i :: 0 <= i < |s| - 1 ==> !(s[i] == '"' && s[i + 1] == '"')
  }

  /** Python's s.find('""') searched from position `from`: the first index of two adjacent
      double quotes, or -1 when there is none. */
  function FindEmptyQuotes(s: string, from: nat): (k: int)
    ensures k == -1 || (from <= k < |s| - 1 && s[k] == '"' && s[k + 1] == '"')
    ensures k == -1 ==> forall i :: from <= i < |s| - 1 ==> !(s[i] == '"' && s[i + 1] == '"')
    ensures k != -1 ==> forall i :: from <= i < k ==> !(s[i] == '"' && s[i + 1] == '"')
    decreases |s| - from
  {
    if from + 1 >= |s| then -1
    else if s[from] == '"' && s[from + 1] == '"' then from
    else FindEmptyQuotes(s, from + 1)
  }

  /** The ASCII part of str.casefold(): upper-case Latin letters become lower-case. */
  function Lower(s: string): (r: string)
    ensures |r| == |s|
    ensures forall k :: 0 <= k < |s| && !('A' <= s[k] <= 'Z') ==> r[k] == s[k]
    ensures forall k :: 0 <= k < |s| && 'A' <= s[k] <= 'Z' ==> r[k] == (s[k] as int + 32) as char
  {
    if |s| == 0 then ""
    else [if 'A' <= s[0] <= 'Z' then (s[0] as int + 32) as char else s[0]] + Lower(s[1..])
  }

  /** Folding twice is folding once: no folded character is an upper-case letter. */
  lemma {:induction false} LowerIdempotent(s: string)
    ensures Lower(Lower(s)) == Lower(s)
  {
    var t := Lower(s);
    forall k | 0 <= k < |t| ensures !('A' <= t[k] <= 'Z') {
    }
  }

  // ---------------------------------------------------------------------------------
  // float() of a plain decimal

  predicate AllDigits(s: string) { forall k :: 0 <= k < |s| ==> IsDigit(s[k]) }

  function DigitsValue(s: string): nat
    requires AllDigits(s)
    decreases |s|
  {
    if |s| == 0 then 0 else DigitsValue(s[..|s| - 1]) * 10 + (s[|s| - 1] as int - '0' as int)
  }

  function DigitChar(d: nat): (c: char)
    requires d < 10
    ensures IsDigit(c) && c as int - '0' as int == d
  {
    ('0' as int + d) as char
  }

  /** Python's str(n) for a non-negative int. */
  function NatToString(n: nat): (s: string)
    ensures |s| >= 1 && AllDigits(s)
  {
    (if n < 10 then "" else NatToString(n / 10)) + [DigitChar(n % 10)]
  }

  /** Reading back the digits of str(n) gives n, so distinct numbers print differently. */
  lemma {:induction false} NatToStringValue(n: nat)
    ensures DigitsValue(NatToString(n)) == n
  {
    var s := NatToString(n);
    var d := n % 10;
    assert s[|s| - 1] as int - '0' as int == d;
    if n < 10 {
      assert s[..|s| - 1] == "";
      assert DigitsValue(s) == d;
    } else {
      var q := n / 10;
      assert s[..|s| - 1] == NatToString(q);
      NatToStringValue(q);
      assert DigitsValue(s) == q * 10 + d;
      assert q * 10 + d == n;
    }
  }

  lemma {:induction false} NatToStringInjective(a: nat, b: nat)
    requires NatToString(a) == NatToString(b)
    ensures a == b
  {
    NatToStringValue(a);
    NatToStringValue(b);
  }

  function Pow10(n: nat): (p: nat)
    ensures p >= 1
  {
    if n == 0 then 1 else 10 * Pow10(n - 1)
  }

  /** Digits with at most one decimal point and at least one digit. */
  function ParseUnsigned(s: string): (r: Option<real>)
    ensures r.Some? ==> r.value >= 0.0
  {
    var parts := Split(s, '.');
    if |parts| == 1 && |parts[0]| > 0 && AllDigits(parts[0]) then
      Some(DigitsValue(parts[0]) as real)
    else if |parts| == 2 && |parts[0]| + |parts[1]| > 0 && AllDigits(parts[0]) && AllDigits(parts[1]) then
      Some(DigitsValue(parts[0]) as real + DigitsValue(parts[1]) as real / Pow10(|parts[1]|) as real)
    else None
  }

  /** Python's float(s) for a plain decimal with an optional sign; anything else raises. */
  function ParseDecimal(s: string): Option<real>
  {
    if |s| > 0 && (s[0] == '-' || s[0] == '+') then
      match ParseUnsigned(s[1..])
      case Some(v) => Some(if s[0] == '-' then -v else v)
      case None => None
    else ParseUnsigned(s)
  }

  // ---------------------------------------------------------------------------------
  // re.findall(r'[^"\s]\S*|<quoted>', s)

  /** The quoted alternative of the name-line pattern. */
  datatype QuoteRule =
    | Closed         // ".+?"  a quote, at least one character, then the nearest quote
    | Open           // ".+?   a quote and exactly one more character
    | ClosedOrEmpty  // ".*?"  a quote, possibly nothing, then the nearest quote

  /** Length of the leading run of non-whitespace characters (the \S* part). */
  function RunLength(s: string): (n: nat)
    ensures n <= |s|
    ensures forall k :: 0 <= k < n ==> !IsSpace(s[k])
    ensures n < |s| ==> IsSpace(s[n])
  {
    if |s| == 0 || IsSpace(s[0]) then 0 else 1 + RunLength(s[1..])
  }

  /** The nearest '"' at or after `from` that a lazy `.` run can reach: `.` does not
      match a newline, so a newline before the quote ends the search. */
  function NextQuote(s: string, from: nat): (k: Option<nat>)
    ensures k.Some? ==> from <= k.value < |s| && s[k.value] == '"'
    ensures k.Some? ==> forall i :: from <= i < k.value ==> s[i] != '"' && s[i] != '\n'
    decreases |s| - from
  {
    if from >= |s| || s[from] == '\n' then None
    else if s[from] == '"' then Some(from)
    else NextQuote(s, from + 1)
  }

  /** Length of the match of the quoted alternative at the start of s, which is a quote. */
  function QuotedLength(s: string, rule: QuoteRule): (n: Option<nat>)
    requires |s| > 0 && s[0] == '"'
    ensures n.Some? ==> 2 <= n.value <= |s|
  {
    match rule
    case Closed =>
      if |s| >= 2 && s[1] != '\n' then
        match NextQuote(s, 2) case Some(k) => Some(k + 1) case None => None
      else None
    case Open =>
      if |s| >= 2 && s[1] != '\n' then Some(2) else None
    case ClosedOrEmpty =>
      match NextQuote(s, 1) case Some(k) => Some(k + 1) case None => None
  }

  /** re.findall of `[^"\s]\S*|<rule>` over s: at each position the bare alternative is
      tried first, then the quoted one; where neither matches the scan moves on by one. */
  function FindAll(s: string, rule: QuoteRule): (r: seq<string>)
    ensures forall k :: 0 <= k < |r| ==> |r[k]| > 0 && !IsSpace(r[k][0])
    decreases |s|
  {
    if |s| == 0 then []
    else if s[0] != '"' && !IsSpace(s[0]) then
      var n := RunLength(s);
      [s[..n]] + FindAll(s[n..], rule)
    else if s[0] == '"' && QuotedLength(s, rule).Some? then
      var n := QuotedLength(s, rule).value;
      [s[..n]] + FindAll(s[n..], rule)
    else FindAll(s[1..], rule)
  }

  /** With the closed pattern, '""' followed by a space starts no token: the scan steps over
      both quotes and the line `"" U1` yields only its designator. */
  lemma {:induction false} LoneEmptyQuotesSkipped()
    ensures FindAll("\"\" U1", Closed) == ["U1"]
  {
    var line := "\"\" U1";
    var rest := "\" U1";
    assert NextQuote(line, 2) == None;
    assert line[1..] == rest;
    assert NextQuote(rest, 2) == None;
    assert rest[1..] == " U1" && " U1"[1..] == "U1";
    assert !IsSpace('U') && !IsSpace('1');
    assert RunLength("U1") == 2;
    assert "U1"[..2] == "U1" && "U1"[2..] == [];
  }

  /** A token as a name line writes it: a bare word that does not start with a quote, or
      a double-quoted string (possibly empty) without quotes or newlines inside. */
  predicate WellFormedToken(t: string)
  {
    || (|t| > 0 && t[0] != '"' && forall k :: 0 <= k < |t| ==> !IsSpace(t[k]))
    || (|t| >= 2 && t[0] == '"' && t[|t| - 1] == '"' &&
        forall k :: 1 <= k < |t| - 1 ==> t[k] != '"' && t[k] != '\n')
  }

  lemma {:induction false} RunLengthOfWord(t: string, u: string)
    requires forall k :: 0 <= k < |t| ==> !IsSpace(t[k])
    requires u == [] || IsSpace(u[0])
    ensures RunLength(t + u) == |t|
    decreases |t|
  {
    if |t| > 0 {
      RunLengthOfWord(t[1..], u);
      assert (t + u)[1..] == t[1..] + u;
    }
  }

  lemma {:induction false} NextQuoteAt(s: string, from: nat, k: nat)
    requires from <= k < |s| && s[k] == '"'
    requires forall i :: from <= i < k ==> s[i] != '"' && s[i] != '\n'
    ensures NextQuote(s, from) == Some(k)
    decreases k - from
  {
    if from < k {
      NextQuoteAt(s, from + 1, k);
    }
  }

  /** The leading well-formed token of t + u, when u is empty or starts with whitespace,
      is t and the scan resumes at u. */
  lemma {:induction false} FindAllFirstToken(t: string, u: string)
    requires WellFormedToken(t)
    requires u == [] || IsSpace(u[0])
    ensures FindAll(t + u, ClosedOrEmpty) == [t] + FindAll(u, ClosedOrEmpty)
  {
    var s := t + u;
    if t[0] != '"' {
      RunLengthOfWord(t, u);
    } else {
      NextQuoteAt(s, 1, |t| - 1);
    }
    assert s[..|t|] == t && s[|t|..] == u;
  }

  /** The corrected name-line tokenizer reads back every line written as well-formed
      tokens separated by single spaces. */
  lemma {:induction false} FindAllJoin(tokens: seq<string>)
    requires |tokens| >= 1
    requires forall k :: 0 <= k < |tokens| ==> WellFormedToken(tokens[k])
    ensures FindAll(Join(tokens, ' '), ClosedOrEmpty) == tokens
    decreases |tokens|
  {
    if |tokens| == 1 {
      FindAllFirstToken(tokens[0], "");
      assert tokens[0] + "" == tokens[0];
    } else {
      var rest := Join(tokens[1..], ' ');
      FindAllJoin(tokens[1..]);
      assert Join(tokens, ' ') == tokens[0] + ([' '] + rest);
      FindAllFirstToken(tokens[0], [' '] + rest);
      assert ([' '] + rest)[1..] == rest;
    }
  }

  /** On a line without two adjacent quotes, the closed-quote pattern and the corrected
      one find the same tokens. */
  lemma {:induction false} ClosedAgreesWithoutEmptyQuotes(s: string)
    requires NoEmptyQuotes(s)
    ensures FindAll(s, Closed) == FindAll(s, ClosedOrEmpty)
    decreases |s|
  {
    if |s| > 0 {
      if s[0] != '"' && !IsSpace(s[0]) {
        var n := RunLength(s);
        assert NoEmptyQuotes(s[n..]) by {
          forall i | 0 <= i < |s[n..]| - 1 ensures !(s[n..][i] == '"' && s[n..][i + 1] == '"') {
            assert s[n..][i] == s[n + i] && s[n..][i + 1] == s[n + i + 1];
          }
        }
        ClosedAgreesWithoutEmptyQuotes(s[n..]);
      } else if s[0] == '"' {
        assert QuotedLength(s, Closed) == QuotedLength(s, ClosedOrEmpty) by {
          if |s| >= 2 {
            assert s[1] != '"';
          }
        }
        match QuotedLength(s, Closed)
        case Some(n) =>
          assert NoEmptyQuotes(s[n..]) by {
            forall i | 0 <= i < |s[n..]| - 1 ensures !(s[n..][i] == '"' && s[n..][i + 1] == '"') {
              assert s[n..][i] == s[n + i] && s[n..][i + 1] == s[n + i + 1];
            }
          }
          ClosedAgreesWithoutEmptyQuotes(s[n..]);
        case None =>
          assert NoEmptyQuotes(s[1..]) by {
            forall i | 0 <= i < |s[1..]| - 1 ensures !(s[1..][i] == '"' && s[1..][i + 1] == '"') {
              assert s[1..][i] == s[1 + i] && s[1..][i + 1] == s[i + 2];
            }
          }
          ClosedAgreesWithoutEmptyQuotes(s[1..]);
      } else {
        assert NoEmptyQuotes(s[1..]) by {
          forall i | 0 <= i < |s[1..]| - 1 ensures !(s[1..][i] == '"' && s[1..][i + 1] == '"') {
            assert s[1..][i] == s[1 + i] && s[1..][i + 1] == s[i + 2];
          }
        }
        ClosedAgreesWithoutEmptyQuotes(s[1..]);
      }
    }
  }
}
