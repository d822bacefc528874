/** The few Python string operations the modelled code relies on, over `seq<char>`. */
module Text {
  import opened Outcome

  /** The characters Python's str.isspace() accepts: what str.strip() removes. */
  predicate IsSpace(c: char) {
    ('\U{0009}' <= c <= '\U{000D}') || ('\U{001C}' <= c <= '\U{0020}') || c == '\U{0085}'
    || c == '\U{00A0}' || c == '\U{1680}' || ('\U{2000}' <= c <= '\U{200A}') || c == '\U{2028}'
    || c == '\U{2029}' || c == '\U{202F}' || c == '\U{205F}' || c == '\U{3000}'
  }

  /** The bytes that bytes.strip() removes (ASCII whitespace only). */
  predicate IsAsciiSpace(c: char) {
    ('\U{0009}' <= c <= '\U{000D}') || c == ' '
  }

  /** Drops the leading characters that satisfy `ws`. */
  function TrimStart(s: string, ws: char -> bool): (r: string)
    ensures |r| <= |s| && r == s[|s| - |r|..]
    ensures forall i :: 0 <= i < |s| - |r| ==> ws(s[i])
    ensures r == [] || !ws(r[0])
  {
    if s != [] && ws(s[0]) then TrimStart(s[1..], ws) else s
  }

  /** Drops the trailing characters that satisfy `ws`. */
  function TrimEnd(s: string, ws: char -> bool): (r: string)
    ensures |r| <= |s| && r == s[..|r|]
    ensures forall i :: |r| <= i < |s| ==> ws(s[i])
    ensures r == [] || !ws(r[|r| - 1])
  {
    if s != [] && ws(s[|s| - 1]) then TrimEnd(s[..|s| - 1], ws) else s
  }

  /** str.strip() with no argument. */
  function Strip(s: string): string {
    TrimEnd(TrimStart(s, IsSpace), IsSpace)
  }

  /** Stripping leaves nothing exactly when the text is all whitespace, and otherwise leaves text
      that neither starts nor ends with whitespace. */
  lemma StripSpec(s: string)
    ensures Strip(s) == [] <==> forall i :: 0 <= i < |s| ==> IsSpace(s[i])
    ensures Strip(s) == [] || (!IsSpace(Strip(s)[0]) && !IsSpace(Strip(s)[|Strip(s)| - 1]))
  {
    var t := TrimStart(s, IsSpace);
    assert Strip(s) == [] ==> t == [];
  }

  /** bytes.strip() with no argument, on the decoded text. */
  function StripBytes(s: string): string {
    TrimEnd(TrimStart(s, IsAsciiSpace), IsAsciiSpace)
  }

  function LowerChar(c: char): char {
    if 'A' <= c <= 'Z' then (c as int + 32) as char else c
  }

  /** str.lower(), for the ASCII letters. */
  function Lower(s: string): string {
    if s == [] then [] else [LowerChar(s[0])] + Lower(s[1..])
  }

  /** lower() leaves a text without upper-case ASCII letters as it is. */
  lemma {:induction false} LowerKeeps(s: string)
    requires forall i :: 0 <= i < |s| ==> !('A' <= s[i] <= 'Z')
    ensures Lower(s) == s
  {
    if s != [] {
      LowerKeeps(s[1..]);
      assert [s[0]] + s[1..] == s;
    }
  }

  /** str.find(p) as an option: the least index at which p occurs in s. */
  function Find(s: string, p: string): (r: Option<nat>)
    ensures r.Some? ==> r.value <= |s| && p <= s[r.value..]
    ensures r.Some? ==> forall j :: 0 <= j < r.value ==> !(p <= s[j..])
    ensures r.None? ==> forall j :: 0 <= j <= |s| ==> !(p <= s[j..])
  {
    if p <= s then Some(0)
    else if s == [] then None
    else
      var rest := Find(s[1..], p);
      assert forall j :: 1 <= j <= |s| ==> s[j..] == s[1..][j - 1..];
      if rest.None? then None else Some(rest.value + 1)
  }

  /** The first occurrence is where the pattern occurs with no occurrence before it. */
  lemma FindAt(s: string, p: string, i: nat)
    requires i <= |s| && p <= s[i..] && forall j :: 0 <= j < i ==> !(p <= s[j..])
    ensures Find(s, p) == Some(i)
  {
  }

  /** `p in s` for strings. */
  predicate Contains(s: string, p: string) {
    Find(s, p).Some?
  }

  /** s.split(sep)[0]: the text before the first occurrence of sep. */
  function Before(s: string, sep: string): (r: string)
    ensures r <= s
    ensures Contains(s, sep) ==> |r| < |s| || sep == []
    ensures !Contains(s, sep) ==> r == s
  {
    match Find(s, sep)
    case None => s
    case Some(i) => s[..i]
  }

  /** The text before the first occurrence of a separator does not hold the separator. */
  lemma BeforeExcludes(s: string, sep: string)
    requires sep != []
    ensures !Contains(Before(s, sep), sep)
  {
    var r := Before(s, sep);
    if Find(s, sep).Some? {
      forall j | 0 <= j <= |r|
        ensures !(sep <= r[j..])
      {
        if j < |r| {
          assert r[j..] <= s[j..];
        }
      }
    }
  }

  /** A slice of a text that does not hold a pattern does not hold it either. */
  lemma SliceExcludes(s: string, p: string, a: nat, b: nat)
    requires !Contains(s, p) && a <= b <= |s|
    ensures !Contains(s[a..b], p)
  {
    var r := s[a..b];
    forall j | 0 <= j <= |r|
      ensures !(p <= r[j..])
    {
      assert r[j..] <= s[a + j..];
    }
  }

  /** Stripping keeps a pattern absent: the result is a slice of its input. */
  lemma StripExcludes(s: string, p: string)
    requires !Contains(s, p)
    ensures !Contains(Strip(s), p)
  {
    var t := TrimStart(s, IsSpace);
    SliceExcludes(s, p, |s| - |t|, |s|);
    var r := TrimEnd(t, IsSpace);
    SliceExcludes(t, p, 0, |r|);
  }

  /** s.split(sep)[1]: the text between the first and the second occurrence of sep;
      None where Python raises IndexError (sep does not occur). */
  function SecondField(s: string, sep: string): (r: Option<string>)
    requires sep != []
    ensures r.Some? <==> Contains(s, sep)
  {
    match Find(s, sep)
    case None => None
    case Some(i) => Some(Before(s[i + |sep|..], sep))
  }

  /** str.replace(p, r) for an empty p: r goes before every character and at the end. */
  function InsertAround(s: string, r: string): string {
    if s == [] then r else r + [s[0]] + InsertAround(s[1..], r)
  }

  /** str.replace(p, r): the non-overlapping occurrences of p, found left to right, become r. */
  function Replace(s: string, p: string, r: string): string
    decreases |s|
  {
    if p == [] then InsertAround(s, r)
    else if p <= s then r + Replace(s[|p|..], p, r)
    else if s == [] then []
    else [s[0]] + Replace(s[1..], p, r)
  }

  /** Replacing a text that does not occur changes nothing. */
  lemma {:induction false} ReplaceAbsent(s: string, p: string, r: string)
    requires p != [] && !Contains(s, p)
    ensures Replace(s, p, r) == s
  {
    if s != [] {
      ReplaceAbsent(s[1..], p, r);
    }
  }

  /** Replacing a text by itself changes nothing. */
  lemma {:induction false} ReplaceIdentity(s: string, p: string)
    requires p != []
    ensures Replace(s, p, p) == s
    decreases |s|
  {
    if p <= s {
      ReplaceIdentity(s[|p|..], p);
      assert s == p + s[|p|..];
    } else if s != [] {
      ReplaceIdentity(s[1..], p);
      assert s == [s[0]] + s[1..];
    }
  }

  /** A character where the pattern does not start is copied. */
  lemma ReplaceMiss(c: char, b: string, p: string, r: string)
    requires p != [] && !(p <= [c] + b)
    ensures Replace([c] + b, p, r) == [c] + Replace(b, p, r)
  {
    assert ([c] + b)[1..] == b;
  }

  /** A text holding no first character of the pattern is copied. */
  lemma {:induction false} ReplaceSkip(a: string, b: string, p: string, r: string)
    requires p != [] && p[0] !in a
    ensures Replace(a + b, p, r) == a + Replace(b, p, r)
  {
    if a == [] {
      assert a + b == b;
    } else {
      var c, rest := a[0], a[1..];
      var tail := Replace(b, p, r);
      assert Replace(rest + b, p, r) == rest + tail by {
        assert p[0] !in rest by { assert a == [c] + rest; }
        ReplaceSkip(rest, b, p, r);
      }
      assert Replace(a + b, p, r) == [c] + Replace(rest + b, p, r) by {
        assert a + b == [c] + (rest + b);
        assert ([c] + (rest + b))[0] != p[0];
        ReplaceMiss(c, rest + b, p, r);
      }
      assert a == [c] + rest;
    }
  }

  /** An occurrence of the pattern at the front is replaced. */
  lemma ReplaceHit(b: string, p: string, r: string)
    requires p != []
    ensures Replace(p + b, p, r) == r + Replace(b, p, r)
  {
    assert (p + b)[|p|..] == b;
  }

  predicate IsDigit(c: char) {
    '0' <= c <= '9'
  }

  predicate AllDigits(s: string) {
    forall i :: 0 <= i < |s| ==> IsDigit(s[i])
  }

  /** int(s) for a string of ASCII decimal digits (0 for the empty string). */
  function DigitsValue(s: string): nat
    requires AllDigits(s)
  {
    if s == [] then 0 else 10 * DigitsValue(s[..|s| - 1]) + (s[|s| - 1] as int - '0' as int)
  }

  /** str(n) for a natural number. */
  function NatToString(n: nat): (r: string)
    ensures r != [] && AllDigits(r)
  {
    (if n < 10 then [] else NatToString(n / 10)) + [('0' as int + n % 10) as char]
  }

  /** str(i) for an integer. */
  function IntToString(i: int): string {
    if i < 0 then "-" + NatToString(-i) else NatToString(i)
  }

  /** int(str(n)) == n. */
  lemma {:induction false} DigitsRoundTrip(n: nat)
    ensures DigitsValue(NatToString(n)) == n
  {
    var s := NatToString(n);
    assert s[..|s| - 1] == if n < 10 then [] else NatToString(n / 10);
    if n >= 10 {
      DigitsRoundTrip(n / 10);
    }
  }

  /** int(s) on an optional sign followed by ASCII digits, the texts this program hands to int();
      every other text is modelled as ValueError, although Python's int() also accepts surrounding
      whitespace, underscores between digits and the other Unicode decimal digits. */
  function ParseInt(s: string): (r: Result<int>)
    ensures r.Err? ==> r.error == ValueError
  {
    if s != [] && (s[0] == '-' || s[0] == '+') then
      var d := s[1..];
      if d != [] && AllDigits(d) then Ok(if s[0] == '-' then -(DigitsValue(d) as int) else DigitsValue(d) as int)
      else Err(ValueError)
    else if s != [] && AllDigits(s) then Ok(DigitsValue(s))
    else Err(ValueError)
  }

  /** int() of a run of digits, with or without a minus sign. */
  lemma ParseDigits(d: string)
    requires d != [] && AllDigits(d)
    ensures ParseInt(d) == Ok(DigitsValue(d) as int)
    ensures ParseInt("-" + d) == Ok(-(DigitsValue(d) as int))
  {
    assert IsDigit(d[0]);
    assert ("-" + d)[1..] == d;
  }

  /** int(str(i)) == i. */
  lemma ParseIntRoundTrip(i: int)
    ensures ParseInt(IntToString(i)) == Ok(i)
  {
    var n: nat := if i < 0 then -i else i;
    var d := NatToString(n);
    DigitsRoundTrip(n);
    ParseDigits(d);
    assert IntToString(i) == if i < 0 then "-" + d else d;
  }

  /** The leading run of ASCII digits of s. */
  function DigitRun(s: string): (r: string)
    ensures r <= s && AllDigits(r)
    ensures |r| < |s| ==> !IsDigit(s[|r|])
  {
    if s == [] || !IsDigit(s[0]) then [] else [s[0]] + DigitRun(s[1..])
  }

  /** re.search(r"\d+", s) with `\d` read as an ASCII digit: the first maximal run of ASCII
      digits, if there is one. */
  function FirstDigits(s: string): (r: Option<string>)
    ensures r.Some? ==> r.value != [] && AllDigits(r.value)
    ensures r.None? <==> forall i :: 0 <= i < |s| ==> !IsDigit(s[i])
  {
    if s == [] then None
    else if IsDigit(s[0]) then Some(DigitRun(s))
    else
      var r := FirstDigits(s[1..]);
      assert forall i :: 1 <= i < |s| ==> s[i] == s[1..][i - 1];
      r
  }

  predicate NoSpace(w: string) {
    forall i :: 0 <= i < |w| ==> !IsSpace(w[i])
  }

  /** The leading run of characters that are not whitespace. */
  function WordAt(s: string): (r: string)
    ensures r <= s && NoSpace(r)
    ensures |r| < |s| ==> IsSpace(s[|r|])
  {
    if s == [] || IsSpace(s[0]) then [] else [s[0]] + WordAt(s[1..])
  }

  /** str.split() with no argument: the maximal runs of non-whitespace characters, in order. */
  function Words(s: string): seq<string>
    decreases |s|
  {
    if s == [] then []
    else if IsSpace(s[0]) then Words(s[1..])
    else var w := WordAt(s); [w] + Words(s[|w|..])
  }

  lemma {:induction false} WordAtOf(w: string, rest: string)
    requires NoSpace(w) && (rest == [] || IsSpace(rest[0]))
    ensures WordAt(w + rest) == w
  {
    if w != [] {
      assert w[0] in w;
      assert (w + rest)[1..] == w[1..] + rest;
      assert NoSpace(w[1..]) by {
        forall c | c in w[1..] ensures !IsSpace(c) { assert c in w; }
      }
      WordAtOf(w[1..], rest);
      assert [w[0]] + w[1..] == w;
    } else {
      assert w + rest == rest;
    }
  }

  /** Leading whitespace does not change the words. */
  lemma WordsSkipSpace(c: char, rest: string)
    requires IsSpace(c)
    ensures Words([c] + rest) == Words(rest)
  {
    assert ([c] + rest)[1..] == rest;
  }

  /** A word followed by whitespace (or by nothing) is the first word. */
  lemma WordsCons(w: string, rest: string)
    requires w != [] && NoSpace(w) && (rest == [] || IsSpace(rest[0]))
    ensures Words(w + rest) == [w] + Words(rest)
  {
    assert w[0] in w;
    assert (w + rest)[0] == w[0];
    WordAtOf(w, rest);
    assert (w + rest)[|w|..] == rest;
  }

  /** A run of whitespace, such as the blanks and tabs that separate the fields of a line. */
  predicate Gap(sep: string) {
    sep != [] && forall i :: 0 <= i < |sep| ==> IsSpace(sep[i])
  }

  /** A line of fields, each followed by its own run of whitespace; the last run ends the line. */
  function FieldLine(ws: seq<string>, seps: seq<string>): string
    requires |seps| == |ws|
  {
    if ws == [] then [] else ws[0] + seps[0] + FieldLine(ws[1..], seps[1..])
  }

  /** Any amount of leading whitespace does not change the words. */
  lemma {:induction false} WordsSkipGap(sep: string, rest: string)
    requires forall i :: 0 <= i < |sep| ==> IsSpace(sep[i])
    ensures Words(sep + rest) == Words(rest)
  {
    if sep != [] {
      assert sep + rest == [sep[0]] + (sep[1..] + rest);
      WordsSkipSpace(sep[0], sep[1..] + rest);
      WordsSkipGap(sep[1..], rest);
    } else {
      assert sep + rest == rest;
    }
  }

  /** Splitting a line of fields gives the fields back, whatever whitespace separates them. */
  lemma {:induction false} WordsOfFieldLine(ws: seq<string>, seps: seq<string>)
    requires |seps| == |ws|
    requires forall i :: 0 <= i < |ws| ==> ws[i] != [] && NoSpace(ws[i]) && Gap(seps[i])
    ensures Words(FieldLine(ws, seps)) == ws
  {
    if ws != [] {
      var w, sep, more := ws[0], seps[0], ws[1..];
      var rest := FieldLine(more, seps[1..]);
      assert FieldLine(ws, seps) == w + (sep + rest);
      WordsOfFieldLine(more, seps[1..]);
      WordsSkipGap(sep, rest);
      assert sep[0] == (sep + rest)[0];
      WordsCons(w, sep + rest);
      assert ws == [w] + more;
    }
  }

  /** split(c)[1] of a + c + b, where neither a nor b holds c, is b. */
  lemma SecondFieldAfter(a: string, c: char, b: string)
    requires c !in a && c !in b
    ensures SecondField(a + [c] + b, [c]) == Some(b)
  {
    var s := a + [c] + b;
    assert Find(s, [c]) == Some(|a|) by {
      assert s == a + ([c] + b);
      FindCharShift(a, [c] + b, c);
      assert [c] <= [c] + b;
    }
    assert s[|a| + 1..] == b;
    assert Before(b, [c]) == b by {
      AbsentCharExcludes(b, [c], 0);
    }
  }

  /** A text lacking one of p's characters does not contain p. */
  lemma AbsentCharExcludes(s: string, p: string, k: nat)
    requires k < |p| && p[k] !in s
    ensures !Contains(s, p)
  {
  }

  /** A character absent from b: its first occurrence in b + rest is the one in rest, shifted. */
  lemma {:induction false} FindCharShift(b: string, rest: string, c: char)
    requires c !in b
    ensures Find(b + rest, [c]) == if Find(rest, [c]).Some? then Some(|b| + Find(rest, [c]).value) else None
  {
    if b != [] {
      assert b[0] in b;
      assert (b + rest)[0] == b[0];
      assert (b + rest)[1..] == b[1..] + rest;
      FindCharShift(b[1..], rest, c);
    } else {
      assert b + rest == rest;
    }
  }

  /** '{:>w}' on a string: right-aligned in a field of at least w characters. */
  function PadLeft(s: string, w: nat): (r: string)
    ensures |r| == if |s| < w then w else |s|
    ensures r[|r| - |s|..] == s
    ensures forall i :: 0 <= i < |r| - |s| ==> r[i] == ' '
  {
    if |s| >= w then s else seq(w - |s|, _ => ' ') + s
  }

  /** The hexadecimal digit of a value below 16, as repr() writes it. */
  function HexDigit(d: nat): char
    requires d < 16
  {
    if d < 10 then ('0' as int + d) as char else ('a' as int + d - 10) as char
  }

  /** How repr() shows one character between quotes `q`: the quote and the backslash escaped, tab,
      newline and carriage return by name, the other ASCII control characters as `\xhh`. */
  function ReprChar(c: char, q: char): string {
    if c == q || c == '\\' then ['\\', c]
    else if c == '\t' then "\\t"
    else if c == '\n' then "\\n"
    else if c == '\r' then "\\r"
    else if c < ' ' || c == '\U{7F}' then "\\x" + [HexDigit(c as int / 16), HexDigit(c as int % 16)]
    else [c]
  }

  function Escaped(s: string, q: char): string {
    if s == [] then [] else Escaped(s[..|s| - 1], q) + ReprChar(s[|s| - 1], q)
  }

  /** repr(s), the text str(KeyError(s)) shows: single quotes unless s holds a single quote and
      no double quote, and the characters inside escaped. */
  function Repr(s: string): (r: string)
    ensures |r| >= |s| + 2 && r[0] == r[|r| - 1]
    ensures r[0] == (if '\'' in s && '"' !in s then '"' else '\'')
  {
    var q := if '\'' in s && '"' !in s then '"' else '\'';
    EscapedLength(s, q);
    [q] + Escaped(s, q) + [q]
  }

  lemma {:induction false} EscapedLength(s: string, q: char)
    ensures |Escaped(s, q)| >= |s|
  {
    if s != [] {
      EscapedLength(s[..|s| - 1], q);
    }
  }

  /** Printable ASCII other than the backslash and the quote, and every character beyond ASCII, is
      shown as it is. */
  lemma {:induction false} EscapedPlain(s: string, q: char)
    requires forall i :: 0 <= i < |s| ==> s[i] != q && s[i] != '\\' && s[i] >= ' ' && s[i] != '\U{7F}'
    ensures Escaped(s, q) == s
  {
    if s != [] {
      var init, c := s[..|s| - 1], s[|s| - 1];
      EscapedPlain(init, q);
      assert ReprChar(c, q) == [c];
      assert s == init + [c];
    }
  }

  /** repr() doubles a backslash. */
  lemma ReprBackslash()
    ensures Repr("a\\b") == "'a\\\\b'"
  {
    var s := "a\\b";
    assert s[..2][..1] == "a" && "a"[..0] == [];
    assert Escaped(s, '\'') == "a\\\\b";
    assert forall i :: 0 <= i < |s| ==> s[i] != '\'';
  }

  /** Every character repr() escapes, the backslash, the quote in use and each ASCII control
      character, is written as a backslash followed by one letter or by `x` and two hexadecimal
      digits, all of them printable ASCII: the escaped text holds no control character. */
  lemma ReprCharEscapes(c: char, q: char)
    requires c == q || c == '\\' || c < ' ' || c == '\U{7F}'
    requires ' ' <= q < '\U{7F}'
    ensures var e := ReprChar(c, q);
      e[0] == '\\' && (|e| == 2 || (|e| == 4 && e[1] == 'x')) &&
      forall i :: 0 <= i < |e| ==> ' ' <= e[i] < '\U{7F}'
  {
    if c != q && c != '\\' && c != '\t' && c != '\n' && c != '\r' {
      var e := ReprChar(c, q);
      assert e == "\\x" + [HexDigit(c as int / 16), HexDigit(c as int % 16)];
    }
  }

  /** A text with a single quote, no double quote, no backslash and no ASCII control character
      is shown between double quotes, unescaped. */
  lemma ReprQuote(s: string)
    requires '\'' in s && '"' !in s
    requires forall i :: 0 <= i < |s| ==> s[i] != '\\' && s[i] >= ' ' && s[i] != '\U{7F}'
    ensures Repr(s) == "\"" + s + "\""
  {
    EscapedPlain(s, '"');
  }

  /** A text with no single quote, no backslash and no ASCII control character is shown between
      single quotes, unescaped. */
  lemma ReprPlain(s: string)
    requires '\'' !in s
    requires forall i :: 0 <= i < |s| ==> s[i] != '\\' && s[i] >= ' ' && s[i] != '\U{7F}'
    ensures Repr(s) == "'" + s + "'"
  {
    EscapedPlain(s, '\'');
  }


}
