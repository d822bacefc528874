/** The label template: finding its `{token}`s, substituting values into it, and the label built
    from one fetch cycle (sensors.py get_label, preferences.py sensors_regex). */
module Template {
  import opened Outcome
  import opened Text

  /** The lazy `.+?}` after a `{` at index 0: the index of the closing `}` that ends the match,
      scanning from j. At least one character is consumed, and `.` stops at a newline. */
  function CloseFrom(s: string, j: nat): (r: Option<nat>)
    requires 1 <= j
    ensures r.Some? ==> j <= r.value < |s| && 2 <= r.value && s[r.value] == '}'
    ensures r.Some? ==> forall k :: j <= k < r.value ==> s[k] != '\n' && (k >= 2 ==> s[k] != '}')
    decreases |s| - j
  {
    if j >= |s| then None
    else if j >= 2 && s[j] == '}' then Some(j)
    else if s[j] == '\n' then None
    else CloseFrom(s, j + 1)
  }

  /** re.findall("{.+?}", s) with the braces of every match removed: the tokens of a template. */
  function Tokens(s: string): (r: seq<string>)
    ensures forall i :: 0 <= i < |r| ==> r[i] != [] && '\n' !in r[i]
    decreases |s|
  {
    if s == [] then []
    else if s[0] == '{' then
      match CloseFrom(s, 1)
      case Some(j) =>
        assert forall c :: c in s[1..j] ==> c != '\n';
        [s[1..j]] + Tokens(s[j + 1..])
      case None => Tokens(s[1..])
    else Tokens(s[1..])
  }

  /** A replacement field str.format treats as a keyword lookup: not empty, not all digits (those
      are positional), and without conversion, format spec, attribute or index syntax. */
  predicate PlainField(inner: string) {
    inner != [] && !AllDigits(inner) && forall c :: c in inner ==> c !in "{}:!.["
  }

  function Prepend(a: string, r: Result<string>): Result<string> {
    if r.Ok? then Ok(a + r.value) else r
  }

  /** template.format(**data), for templates whose fields are plain keyword fields; `{{` and `}}`
      are literal braces, a lone brace and any other field form fail with a format error, and a
      missing key with a KeyError, the first failure from the left winning. */
  function Format(t: string, data: map<string, string>): Result<string>
    decreases |t|
  {
    if t == [] then Ok([])
    else if t[0] == '{' then
      if |t| >= 2 && t[1] == '{' then Prepend("{", Format(t[2..], data))
      else
        match Find(t[1..], "}")
        case None => Err(FormatError)
        case Some(j) =>
          var inner := t[1..j + 1];
          if !PlainField(inner) then Err(FormatError)
          else if inner !in data then Err(KeyError(inner))
          else Prepend(data[inner], Format(t[j + 2..], data))
    else if t[0] == '}' then
      if |t| >= 2 && t[1] == '}' then Prepend("}", Format(t[2..], data)) else Err(FormatError)
    else Prepend([t[0]], Format(t[1..], data))
  }

  /** get_label: what the panel shows for one cycle's values. */
  function Label(template: string, data: map<string, string>): string {
    if |data| == 0 then "(no output)"
    else
      match Format(template, data)
      case Ok(s) => s
      case Err(e) => if e.KeyError? then "Invalid Sensor: " + Repr(e.key) else "Unknown error: "
  }

  // ---------------------------------------------------------------------------------------------
  // Templates as the editor builds them: literal text and `{name}` placeholders.

  datatype Piece = Lit(text: string) | Field(name: string)

  function PieceText(p: Piece): string {
    match p
    case Lit(s) => s
    case Field(n) => "{" + n + "}"
  }

  /** The template text of a list of pieces. */
  function Join(ps: seq<Piece>): string {
    if ps == [] then [] else PieceText(ps[0]) + Join(ps[1..])
  }

  /** Literal text holds no brace; a field name is plain and has no newline. */
  predicate WellFormedPiece(p: Piece) {
    match p
    case Lit(s) => '{' !in s && '}' !in s
    case Field(n) => PlainField(n) && '\n' !in n
  }

  predicate WellFormed(ps: seq<Piece>) {
    forall i :: 0 <= i < |ps| ==> WellFormedPiece(ps[i])
  }

  /** The placeholder names, in order. */
  function FieldNames(ps: seq<Piece>): seq<string> {
    if ps == [] then []
    else (if ps[0].Field? then [ps[0].name] else []) + FieldNames(ps[1..])
  }

  /** Reference substitution over pieces: each field becomes its value, or the first field
      without a value fails with a KeyError. */
  function Substitute(ps: seq<Piece>, data: map<string, string>): Result<string> {
    if ps == [] then Ok([])
    else
      match ps[0]
      case Lit(s) => Prepend(s, Substitute(ps[1..], data))
      case Field(n) => if n !in data then Err(KeyError(n)) else Prepend(data[n], Substitute(ps[1..], data))
  }

  /** Substitution succeeds exactly when every placeholder has a value. */
  lemma {:induction false} SubstituteOk(ps: seq<Piece>, data: map<string, string>)
    ensures Substitute(ps, data).Ok? <==> forall n :: n in FieldNames(ps) ==> n in data
    ensures Substitute(ps, data).Err? ==> Substitute(ps, data).error.KeyError?
    ensures Substitute(ps, data).Err? ==> Substitute(ps, data).error.key in FieldNames(ps)
    ensures Substitute(ps, data).Err? ==> Substitute(ps, data).error.key !in data
  {
    if ps != [] {
      SubstituteOk(ps[1..], data);
    }
  }

  lemma TokensSkip(a: string, b: string)
    requires '{' !in a
    ensures Tokens(a + b) == Tokens(b)
  {
    if a != [] {
      assert a[0] in a;
      assert (a + b)[0] == a[0];
      assert (a + b)[1..] == a[1..] + b;
      assert forall c :: c in a[1..] ==> c in a;
      TokensSkip(a[1..], b);
    } else {
      assert a + b == b;
    }
  }

  lemma CloseFromField(n: string, b: string, j: nat)
    requires n != [] && '}' !in n && '\n' !in n
    requires 1 <= j <= |n| + 1
    ensures CloseFrom("{" + n + "}" + b, j) == Some(|n| + 1)
    decreases |n| + 1 - j
  {
    var s := "{" + n + "}" + b;
    if j <= |n| {
      assert s[j] == n[j - 1];
      CloseFromField(n, b, j + 1);
    } else {
      assert s[j] == '}';
    }
  }

  lemma TokensField(n: string, b: string)
    requires n != [] && '}' !in n && '\n' !in n
    ensures Tokens("{" + n + "}" + b) == [n] + Tokens(b)
  {
    var s := "{" + n + "}" + b;
    CloseFromField(n, b, 1);
    assert s[1..|n| + 1] == n;
    assert s[|n| + 2..] == b;
  }

  /** The tokens the fetch cycle extracts from a template are exactly its placeholder names. */
  lemma {:induction false} TokensOfJoin(ps: seq<Piece>)
    requires WellFormed(ps)
    ensures Tokens(Join(ps)) == FieldNames(ps)
  {
    if ps != [] {
      TokensOfJoin(ps[1..]);
      match ps[0]
      case Lit(s) =>
        TokensSkip(s, Join(ps[1..]));
      case Field(n) =>
        assert "{" + n + "}" + Join(ps[1..]) == Join(ps);
        TokensField(n, Join(ps[1..]));
    }
  }

  lemma PrependAssoc(a: string, b: string, r: Result<string>)
    ensures Prepend(a, Prepend(b, r)) == Prepend(a + b, r)
  {
    if r.Ok? {
      assert a + (b + r.value) == (a + b) + r.value;
    }
  }

  lemma FormatSkip(a: string, b: string, data: map<string, string>)
    requires '{' !in a && '}' !in a
    ensures Format(a + b, data) == Prepend(a, Format(b, data))
  {
    if a != [] {
      assert a[0] in a;
      assert (a + b)[0] == a[0];
      assert (a + b)[1..] == a[1..] + b;
      assert forall c :: c in a[1..] ==> c in a;
      FormatSkip(a[1..], b, data);
      PrependAssoc([a[0]], a[1..], Format(b, data));
      assert [a[0]] + a[1..] == a;
    } else {
      assert a + b == b;
      if Format(b, data).Ok? {
        assert a + Format(b, data).value == Format(b, data).value;
      }
    }
  }

  lemma {:induction false} FindFirstClose(n: string, b: string)
    requires '}' !in n
    ensures Find(n + "}" + b, "}") == Some(|n|)
  {
    var s := n + "}" + b;
    if n != [] {
      assert n[0] in n;
      assert s[0] == n[0];
      assert s[1..] == n[1..] + "}" + b;
      assert forall c :: c in n[1..] ==> c in n;
      FindFirstClose(n[1..], b);
    }
  }

  lemma FormatField(n: string, b: string, data: map<string, string>)
    requires PlainField(n)
    ensures Format("{" + n + "}" + b, data)
         == if n !in data then Err(KeyError(n)) else Prepend(data[n], Format(b, data))
  {
    var t := "{" + n + "}" + b;
    assert n[0] in n;
    assert '}' !in n && n[0] != '{';
    assert t[1..] == n + "}" + b;
    FindFirstClose(n, b);
    assert t[1] == n[0];
    assert t[1..|n| + 1] == n;
    assert t[|n| + 2..] == b;
  }

  /** For a well-formed template str.format agrees with the reference substitution. */
  lemma {:induction false} FormatOfJoin(ps: seq<Piece>, data: map<string, string>)
    requires WellFormed(ps)
    ensures Format(Join(ps), data) == Substitute(ps, data)
  {
    if ps == [] {
    } else {
      FormatOfJoin(ps[1..], data);
      match ps[0]
      case Lit(s) =>
        FormatSkip(s, Join(ps[1..]), data);
      case Field(n) =>
        assert "{" + n + "}" + Join(ps[1..]) == Join(ps);
        FormatField(n, Join(ps[1..]), data);
    }
  }

  /** The label of a well-formed template: the substituted text when every token has a value,
      otherwise the diagnostic naming the first token without one; "(no output)" for no values. */
  lemma LabelOfJoin(ps: seq<Piece>, data: map<string, string>)
    requires WellFormed(ps)
    ensures |data| == 0 ==> Label(Join(ps), data) == "(no output)"
    ensures |data| > 0 && (forall n :: n in Tokens(Join(ps)) ==> n in data) ==>
      Substitute(ps, data) == Ok(Label(Join(ps), data))
    ensures |data| > 0 && !(forall n :: n in Tokens(Join(ps)) ==> n in data) ==>
      exists n :: n in Tokens(Join(ps)) && n !in data && Label(Join(ps), data) == "Invalid Sensor: " + Repr(n)
  {
    TokensOfJoin(ps);
    FormatOfJoin(ps, data);
    SubstituteOk(ps, data);
    if |data| > 0 && !(forall n :: n in Tokens(Join(ps)) ==> n in data) {
      var n := Substitute(ps, data).error.key;
      assert n in Tokens(Join(ps)) && n !in data;
    }
  }

  // ---------------------------------------------------------------------------------------------
  // Rewriting one placeholder (the edit and delete paths)

  /** The template text with every `{name}` placeholder written as `r`. */
  function JoinWith(ps: seq<Piece>, name: string, r: string): string {
    if ps == [] then [] else (if ps[0] == Field(name) then r else PieceText(ps[0])) + JoinWith(ps[1..], name, r)
  }

  /** The pieces without the `{name}` placeholders. */
  function Drop(ps: seq<Piece>, name: string): seq<Piece> {
    if ps == [] then [] else (if ps[0] == Field(name) then [] else [ps[0]]) + Drop(ps[1..], name)
  }

  /** The pieces with every `{name}` placeholder renamed. */
  function Rename(ps: seq<Piece>, name: string, newname: string): seq<Piece> {
    if ps == [] then [] else [if ps[0] == Field(name) then Field(newname) else ps[0]] + Rename(ps[1..], name, newname)
  }

  lemma OtherFieldNoPrefix(n: string, name: string, b: string)
    requires n != name && '}' !in n && '}' !in name
    ensures !("{" + name + "}" <= "{" + n + "}" + b)
  {
    var p := "{" + name + "}";
    var s := "{" + n + "}" + b;
    if |name| < |n| {
      assert n[|name|] in n;
      assert p[|name| + 1] != s[|name| + 1];
    } else if |name| > |n| {
      assert name[|n|] in name;
      assert |s| > |n| + 1 && p[|n| + 1] != s[|n| + 1];
    } else {
      assert !(forall i :: 0 <= i < |n| ==> n[i] == name[i]);
      var i :| 0 <= i < |n| && n[i] != name[i];
      assert p[i + 1] != s[i + 1];
    }
  }

  lemma ReplaceOtherField(n: string, name: string, b: string, r: string)
    requires n != name && '}' !in n && '}' !in name && '{' !in n
    ensures Replace("{" + n + "}" + b, "{" + name + "}", r) == "{" + n + "}" + Replace(b, "{" + name + "}", r)
  {
    var p := "{" + name + "}";
    var mid := n + "}";
    var tail := Replace(b, p, r);
    calc {
      Replace("{" + n + "}" + b, p, r);
      { assert "{" + n + "}" + b == ['{'] + (mid + b);
        OtherFieldNoPrefix(n, name, b);
        ReplaceMiss('{', mid + b, p, r); }
      ['{'] + Replace(mid + b, p, r);
      { assert p[0] == '{' && '{' !in mid;
        ReplaceSkip(mid, b, p, r); }
      ['{'] + (mid + tail);
      { assert "{" + n + "}" + tail == ['{'] + (mid + tail); }
      "{" + n + "}" + tail;
    }
  }

  /** str.replace of a placeholder in a well-formed template rewrites exactly the placeholders
      of that name, and nothing else. */
  lemma {:induction false} ReplaceField(ps: seq<Piece>, name: string, r: string)
    requires WellFormed(ps) && '}' !in name
    ensures Replace(Join(ps), "{" + name + "}", r) == JoinWith(ps, name, r)
  {
    var p := "{" + name + "}";
    if ps != [] {
      ReplaceField(ps[1..], name, r);
      assert Join(ps) == PieceText(ps[0]) + Join(ps[1..]);
      match ps[0]
      case Lit(s) =>
        assert p[0] == '{';
        ReplaceSkip(s, Join(ps[1..]), p, r);
      case Field(n) =>
        if n == name {
          ReplaceHit(Join(ps[1..]), p, r);
        } else {
          assert "{" + n + "}" + Join(ps[1..]) == Join(ps);
          ReplaceOtherField(n, name, Join(ps[1..]), r);
        }
    }
  }

  lemma {:induction false} JoinWithDrop(ps: seq<Piece>, name: string)
    requires WellFormed(ps)
    ensures JoinWith(ps, name, "") == Join(Drop(ps, name)) && WellFormed(Drop(ps, name))
    ensures name !in FieldNames(Drop(ps, name))
    ensures forall n :: n in FieldNames(ps) && n != name ==> n in FieldNames(Drop(ps, name))
  {
    if ps != [] {
      JoinWithDrop(ps[1..], name);
      var rest := Drop(ps[1..], name);
      if ps[0] == Field(name) {
        assert Drop(ps, name) == rest;
      } else {
        assert Drop(ps, name) == [ps[0]] + rest;
        assert Drop(ps, name)[1..] == rest;
      }
    }
  }

  lemma {:induction false} JoinWithRename(ps: seq<Piece>, name: string, newname: string)
    requires WellFormed(ps) && PlainField(newname) && '\n' !in newname
    ensures JoinWith(ps, name, "{" + newname + "}") == Join(Rename(ps, name, newname))
    ensures WellFormed(Rename(ps, name, newname))
    ensures |FieldNames(Rename(ps, name, newname))| == |FieldNames(ps)|
    ensures forall i :: 0 <= i < |FieldNames(ps)| ==>
      FieldNames(Rename(ps, name, newname))[i] == if FieldNames(ps)[i] == name then newname else FieldNames(ps)[i]
  {
    if ps != [] {
      JoinWithRename(ps[1..], name, newname);
      var q := Rename(ps, name, newname);
      assert q[1..] == Rename(ps[1..], name, newname);
      assert FieldNames(ps) == (if ps[0].Field? then [ps[0].name] else []) + FieldNames(ps[1..]);
      assert FieldNames(q) == (if q[0].Field? then [q[0].name] else []) + FieldNames(q[1..]);
    }
  }

  /** Removing `{name}` from a well-formed template leaves a template whose tokens are all the
      others, in order, and never name. */
  lemma StripPlaceholder(ps: seq<Piece>, name: string)
    requires WellFormed(ps) && '}' !in name
    ensures Tokens(Replace(Join(ps), "{" + name + "}", "")) == FieldNames(Drop(ps, name))
    ensures name !in Tokens(Replace(Join(ps), "{" + name + "}", ""))
    ensures forall n :: n in Tokens(Join(ps)) && n != name ==> n in Tokens(Replace(Join(ps), "{" + name + "}", ""))
  {
    ReplaceField(ps, name, "");
    JoinWithDrop(ps, name);
    TokensOfJoin(Drop(ps, name));
    TokensOfJoin(ps);
  }

  /** Replacing `{name}` by `{newname}` in a well-formed template renames that token and keeps
      every other one, in place. */
  lemma RenamePlaceholder(ps: seq<Piece>, name: string, newname: string)
    requires WellFormed(ps) && '}' !in name && PlainField(newname) && '\n' !in newname
    ensures var t := Replace(Join(ps), "{" + name + "}", "{" + newname + "}");
      |Tokens(t)| == |Tokens(Join(ps))| &&
      forall i :: 0 <= i < |Tokens(t)| ==>
        Tokens(t)[i] == if Tokens(Join(ps))[i] == name then newname else Tokens(Join(ps))[i]
  {
    ReplaceField(ps, name, "{" + newname + "}");
    JoinWithRename(ps, name, newname);
    TokensOfJoin(Rename(ps, name, newname));
    TokensOfJoin(ps);
  }

  /** A template made of one placeholder whose sensor produced no value renders as the
      diagnostic naming it. */
  lemma MissingSensorLabel(n: string, data: map<string, string>)
    requires PlainField(n) && |data| > 0 && n !in data
    ensures Label("{" + n + "}", data) == "Invalid Sensor: " + Repr(n)
  {
    assert "{" + n + "}" == "{" + n + "}" + "";
    FormatField(n, "", data);
  }

  // ---------------------------------------------------------------------------------------------
  // Dictionary iteration

  predicate Distinct(order: seq<string>) {
    forall i, j :: 0 <= i < j < |order| ==> order[i] != order[j]
  }

  /** The keys of a dictionary, each once, in some order. */
  method KeysOf(m: map<string, string>) returns (order: seq<string>)
    ensures Distinct(order) && (forall i :: 0 <= i < |order| ==> order[i] in m)
    ensures forall k :: k in m ==> k in order
  {
    order := [];
    var rest := m.Keys;
    while rest != {}
      invariant rest <= m.Keys && Distinct(order)
      invariant forall i :: 0 <= i < |order| ==> order[i] in m && order[i] !in rest
      invariant forall k :: k in m ==> k in rest || k in order
      decreases rest
    {
      var k :| k in rest;
      order := order + [k];
      rest := rest - {k};
    }
  }

  // ---------------------------------------------------------------------------------------------
  // get_guide: the template rendered over sample values

  const GuidePercent := "000%"
  const GuideFs := "000gB"
  const GuideNet := "↓666kB/s ↑666kB/s"

  /** The position of the first key, in iteration order, that starts with "fs". */
  function FirstFs(order: seq<string>): (r: Option<nat>)
    ensures r.Some? ==> r.value < |order| && "fs" <= order[r.value]
    ensures r.Some? ==> forall j :: 0 <= j < r.value ==> !("fs" <= order[j])
    ensures r.None? <==> forall j :: 0 <= j < |order| ==> !("fs" <= order[j])
  {
    if order == [] then None
    else if "fs" <= order[0] then Some(0)
    else
      match FirstFs(order[1..])
      case None => None
      case Some(i) => Some(i + 1)
  }

  /** The values get_guide formats: the first fs value met while iterating becomes "000gB", then
      mem, cpu and bat become "000%" and net a sample rate, whether or not they were fetched. */
  function GuideData(data: map<string, string>, order: seq<string>): map<string, string> {
    var d := match FirstFs(order) case Some(i) => data[order[i] := GuideFs] case None => data;
    d["mem" := GuidePercent]["cpu" := GuidePercent]["bat" := GuidePercent]["net" := GuideNet]
  }

  /** The loop and assignments of get_guide over the fetched values, iterated in `order`. */
  method SampleData(data: map<string, string>, order: seq<string>) returns (d: map<string, string>)
    ensures d == GuideData(data, order)
  {
    d := data;
    var i := 0;
    while i < |order| && !("fs" <= order[i])
      invariant i <= |order| && forall j :: 0 <= j < i ==> !("fs" <= order[j])
    {
      i := i + 1;
    }
    if i < |order| {
      d := d[order[i] := GuideFs];
    }
    assert FirstFs(order) == if i < |order| then Some(i) else None;
    d := d["mem" := GuidePercent]["cpu" := GuidePercent]["bat" := GuidePercent];
    d := d["net" := GuideNet];
  }

  /** get_guide over one cycle's values; it formats the template twice, and both calls give this. */
  function Guide(template: string, data: map<string, string>, order: seq<string>): Result<string> {
    Format(template, GuideData(data, order))
  }

  /** The sample values: the four fixed ones are present, the first fs key met is "000gB", and
      every other value of the cycle is kept. */
  lemma GuideDataSpec(data: map<string, string>, order: seq<string>)
    requires forall i :: 0 <= i < |order| ==> order[i] in data
    ensures var g := GuideData(data, order);
      g.Keys == data.Keys + {"mem", "cpu", "bat", "net"} &&
      g["mem"] == g["cpu"] == g["bat"] == GuidePercent && g["net"] == GuideNet &&
      (forall i :: 0 <= i < |order| && "fs" <= order[i] && (forall j :: 0 <= j < i ==> !("fs" <= order[j])) ==>
         g[order[i]] == GuideFs) &&
      (forall k :: k in data && k !in {"mem", "cpu", "bat", "net"} && !("fs" <= k) ==> g[k] == data[k])
  {
    var g := GuideData(data, order);
    forall i | 0 <= i < |order| && "fs" <= order[i] && (forall j :: 0 <= j < i ==> !("fs" <= order[j]))
      ensures g[order[i]] == GuideFs
    {
      var f := FirstFs(order);
      assert f == Some(i);
      assert order[i] !in {"mem", "cpu", "bat", "net"} by {
        assert order[i][0] == 'f';
        assert "mem"[0] == 'm' && "cpu"[0] == 'c' && "bat"[0] == 'b' && "net"[0] == 'n';
      }
    }
  }

  /** On a template of text and placeholders, get_guide's format succeeds exactly when every
      placeholder was fetched or is one of mem, cpu, bat and net; otherwise it raises KeyError for
      a placeholder that is neither. */
  lemma GuideOfJoin(ps: seq<Piece>, data: map<string, string>, order: seq<string>)
    requires WellFormed(ps) && forall i :: 0 <= i < |order| ==> order[i] in data
    ensures Guide(Join(ps), data, order).Ok? <==>
      forall n :: n in FieldNames(ps) ==> n in data || n in {"mem", "cpu", "bat", "net"}
    ensures Guide(Join(ps), data, order).Err? ==>
      var e := Guide(Join(ps), data, order).error;
      e.KeyError? && e.key in FieldNames(ps) && e.key !in data && e.key !in {"mem", "cpu", "bat", "net"}
  {
    var g := GuideData(data, order);
    assert forall n :: n in g <==> n in data || n in {"mem", "cpu", "bat", "net"} by {
      GuideDataSpec(data, order);
    }
    assert Guide(Join(ps), data, order) == Substitute(ps, g) by {
      FormatOfJoin(ps, g);
    }
    SubstituteOk(ps, g);
  }

  /** A token whose sensor gave no value this cycle makes get_guide raise KeyError. */
  lemma GuideMissingValue(n: string, data: map<string, string>, order: seq<string>)
    requires PlainField(n) && n !in data && n !in {"mem", "cpu", "bat", "net"}
    requires forall i :: 0 <= i < |order| ==> order[i] in data
    ensures Guide("{" + n + "}", data, order) == Err(KeyError(n))
  {
    GuideDataSpec(data, order);
    assert "{" + n + "}" == "{" + n + "}" + "";
    FormatField(n, "", GuideData(data, order));
  }
}
