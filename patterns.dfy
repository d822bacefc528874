/** Sensor-name keys read as the regular expressions the registry compiles them into.

    A key is one alternative of the anchored alternation `\A(key|key|...)\Z`. The built-in keys use
    two shapes besides plain names, `cpu\d*` / `bat\d*` and `fs//.+`; custom names are taken to hold
    no other regular-expression syntax. */
module Patterns {
  import opened Text

  datatype Pattern =
    | Literal(name: string)           // mem, net, a custom name
    | PrefixDigits(prefix: string)    // cpu\d*, bat\d*
    | PrefixNonEmpty(prefix: string)  // fs//.+

  /** How a key reads as a pattern. */
  function PatternOf(key: string): Pattern {
    if |key| >= 3 && key[|key| - 3..] == "\\d*" then PrefixDigits(key[..|key| - 3])
    else if |key| >= 2 && key[|key| - 2..] == ".+" then PrefixNonEmpty(key[..|key| - 2])
    else Literal(key)
  }

  /** The key text of a pattern. */
  function Source(p: Pattern): string {
    match p
    case Literal(n) => n
    case PrefixDigits(q) => q + "\\d*"
    case PrefixNonEmpty(q) => q + ".+"
  }

  /** A name that reads as itself: it does not end in `\d*` or `.+`. */
  predicate IsPlainName(n: string) {
    PatternOf(n) == Literal(n)
  }

  /** A name whose last character is neither `*` nor `+` is plain. */
  lemma PlainByLastChar(n: string)
    requires n != [] && n[|n| - 1] != '*' && n[|n| - 1] != '+'
    ensures IsPlainName(n)
  {
    if |n| >= 3 {
      assert n[|n| - 3..][2] == n[|n| - 1];
    }
    if |n| >= 2 {
      assert n[|n| - 2..][1] == n[|n| - 1];
    }
  }

  /** Reading a key and writing it back gives the key. */
  lemma KeyRoundTrip(key: string)
    ensures Source(PatternOf(key)) == key
  {
    if |key| >= 3 && key[|key| - 3..] == "\\d*" {
      assert key == key[..|key| - 3] + key[|key| - 3..];
    } else if |key| >= 2 && key[|key| - 2..] == ".+" {
      assert key == key[..|key| - 2] + key[|key| - 2..];
    }
  }

  /** Writing a pattern and reading it back gives the pattern, for every pattern whose literal
      name is plain. */
  lemma PatternRoundTrip(p: Pattern)
    requires p.Literal? ==> IsPlainName(p.name)
    ensures PatternOf(Source(p)) == p
  {
    match p
    case Literal(n) =>
    case PrefixDigits(q) =>
      var k := q + "\\d*";
      assert k[|k| - 3..] == "\\d*";
      assert k[..|k| - 3] == q;
    case PrefixNonEmpty(q) =>
      var k := q + ".+";
      assert k[|k| - 2..] == ".+";
      assert k[|k| - 1] == '+';
      assert k[..|k| - 2] == q;
  }

  /** Whether `\A(p)\Z` matches all of t. `.` is any character but a newline, and `\d` is read as an
      ASCII digit: Python's `\d` in a str pattern also matches the other Unicode decimal digits. */
  predicate Matches(p: Pattern, t: string) {
    match p
    case Literal(n) => t == n
    case PrefixDigits(q) => q <= t && AllDigits(t[|q|..])
    case PrefixNonEmpty(q) => q <= t && |t| > |q| && '\n' !in t[|q|..]
  }

  /** Whether the alternation compiled from `keys` matches all of t. */
  predicate MatchesAny(keys: set<string>, t: string) {
    exists k :: k in keys && Matches(PatternOf(k), t)
  }

  /** No token is matched by two different keys. */
  ghost predicate Unambiguous(keys: set<string>) {
    forall k1, k2, t :: k1 in keys && k2 in keys && Matches(PatternOf(k1), t) && Matches(PatternOf(k2), t)
      ==> k1 == k2
  }

  /** A plain key matches exactly its own name. */
  lemma PlainKeyMatchesItself(keys: set<string>, n: string)
    requires n in keys && IsPlainName(n)
    ensures MatchesAny(keys, n)
  {
    assert Matches(PatternOf(n), n);
  }

  /** Adding a plain name that no key matches keeps the keys unambiguous. */
  lemma AddPlainKeepsUnambiguous(keys: set<string>, n: string)
    requires Unambiguous(keys) && IsPlainName(n) && !MatchesAny(keys, n)
    ensures Unambiguous(keys + {n})
  {
  }

  /** Removing keys keeps them unambiguous. */
  lemma SubsetUnambiguous(keys: set<string>, fewer: set<string>)
    requires Unambiguous(keys) && fewer <= keys
    ensures Unambiguous(fewer)
  {
  }
}
