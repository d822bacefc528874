/** IndicatorSysmonitor (budgiesysmonitor.py): the panel button that shows the label, the icon
    markers a sensor value may carry, and the settings calls that restart the fetcher; with the
    fetcher's timer callback, StatusFetcher.run (sensors.py), which hands each cycle to it. */
module Indicator {
  import opened Outcome
  import opened Text
  import opened Template
  import opened Sensors
  import opened Registry

  /** What the indicator does to its button: set_icon_full(path, ""), and the label set from
      the idle callback. */
  datatype Event = SetIcon(path: string) | SetLabel(text: string)

  /** What is displayed in place of a value that carried a marker: the text before the marker,
      stripped, or a single space when nothing is left. */
  function Remaining(test: string, marker: string): string {
    var rest := Strip(Before(test, marker));
    if rest == [] then " " else rest
  }

  /** One value of update() as budgiesysmonitor.py writes it. `self.ind` is a Gtk.Button, which
      has no set_icon_full, so either marker raises AttributeError at its icon call, before any
      icon changes and before the value is rewritten; a `use_icon` without a colon raises
      IndexError first. */
  function RewriteAsWritten(v: string): (seq<Event>, Result<string>) {
    var test := Lower(v);
    if Contains(test, "use_icon") then
      match SecondField(v, ":")
      case None => ([], Err(IndexError))
      case Some(_) => ([], Err(AttributeError))
    else if Contains(test, "clear_icon") then ([], Err(AttributeError))
    else ([], Ok(v))
  }

  /** One value of update(), with `icon` the indicator's own icon: a `use_icon` marker sets the icon
      to the path after the first colon (IndexError when there is none), a `clear_icon` marker puts
      the indicator's icon back; either way the value becomes the lower-cased text before the
      marker, and a `clear_icon` decides the value when both occur. */
  function RewriteValue(v: string, icon: string): (seq<Event>, Result<string>) {
    var test := Lower(v);
    if Contains(test, "use_icon") then
      match SecondField(v, ":")
      case None => ([], Err(IndexError))
      case Some(path) =>
        if Contains(test, "clear_icon") then ([SetIcon(path), SetIcon(icon)], Ok(Remaining(test, "clear_icon")))
        else ([SetIcon(path)], Ok(Remaining(test, "use_icon")))
    else if Contains(test, "clear_icon") then ([SetIcon(icon)], Ok(Remaining(test, "clear_icon")))
    else ([], Ok(v))
  }

  /** As written, update() raises AttributeError exactly for a value with a `clear_icon` marker
      or a `use_icon` marker and a colon, and makes no icon call for any value. */
  lemma MarkerRaises(v: string)
    ensures RewriteAsWritten(v).1 == Err(AttributeError) <==>
      (Contains(Lower(v), "use_icon") && Contains(v, ":")) ||
      (!Contains(Lower(v), "use_icon") && Contains(Lower(v), "clear_icon"))
    ensures RewriteAsWritten(v).0 == []
  {
  }

  /** The rewrite differs from the one as written only where the latter raises AttributeError. */
  lemma RewriteAgrees(v: string, icon: string)
    ensures RewriteAsWritten(v).1 != Err(AttributeError) ==> RewriteAsWritten(v) == RewriteValue(v, icon)
    ensures Contains(Lower(v), "clear_icon") && SecondField(v, ":").Some? ==>
      RewriteValue(v, icon).0[|RewriteValue(v, icon).0| - 1] == SetIcon(icon) &&
      RewriteValue(v, icon).1 == Ok(Remaining(Lower(v), "clear_icon"))
  {
  }

  /** A value without a marker is displayed as it is and touches no icon. */
  lemma UnmarkedKept(v: string, icon: string)
    requires !Contains(Lower(v), "use_icon") && !Contains(Lower(v), "clear_icon")
    ensures RewriteValue(v, icon) == ([], Ok(v))
  {
  }

  /** The text that replaces a marked value is never empty, and never shows the marker that
      decided it. */
  lemma RemainingHidesMarker(test: string, marker: string)
    requires |marker| >= 2
    ensures Remaining(test, marker) != []
    ensures !Contains(Remaining(test, marker), marker)
  {
    BeforeExcludes(test, marker);
    StripExcludes(Before(test, marker), marker);
  }

  /** The rewrite of a single value, as update() applies it to each. */
  type Rewrite = string -> (seq<Event>, Result<string>)

  function Marker(icon: string): Rewrite {
    v => RewriteValue(v, icon)
  }

  /** update()'s loop over the values of `data`, in the order `order` the dictionary yields them,
      each value rewritten by `rw`; the first exception ends it, and the icon calls made until then
      stand. */
  function RewriteAll(data: map<string, string>, order: seq<string>, rw: Rewrite): (seq<Event>, Result<map<string, string>>) {
    if order == [] then ([], Ok(data))
    else
      var prev := RewriteAll(data, order[..|order| - 1], rw);
      var k := order[|order| - 1];
      if prev.1.Err? || k !in prev.1.value then prev
      else
        var step := rw(prev.1.value[k]);
        (prev.0 + step.0, if step.1.Ok? then Ok(prev.1.value[k := step.1.value]) else Err(step.1.error))
  }

  /** One more key of the loop. */
  lemma RewriteAllStep(data: map<string, string>, order: seq<string>, i: nat, d: map<string, string>, rw: Rewrite)
    requires i < |order| && RewriteAll(data, order[..i], rw).1 == Ok(d) && order[i] in d
    ensures RewriteAll(data, order[..i + 1], rw) ==
      (RewriteAll(data, order[..i], rw).0 + rw(d[order[i]]).0,
       if rw(d[order[i]]).1.Ok? then Ok(d[order[i] := rw(d[order[i]]).1.value]) else Err(rw(d[order[i]]).1.error))
  {
    assert order[..i + 1][..i] == order[..i];
  }

  /** A rewrite that completes completed at every earlier key too. */
  lemma CompletedBefore(data: map<string, string>, order: seq<string>, n: nat, rw: Rewrite)
    requires n < |order| && RewriteAll(data, order[..n + 1], rw).1.Ok?
    ensures RewriteAll(data, order[..n], rw).1.Ok?
  {
    assert order[..n + 1][..n] == order[..n];
  }

  /** A rewrite that completes keeps the keys, rewrites each listed value once, from its original
      text, and keeps every other value. */
  lemma {:induction false} RewriteAllValues(data: map<string, string>, order: seq<string>, rw: Rewrite)
    requires Distinct(order) && forall i :: 0 <= i < |order| ==> order[i] in data
    requires RewriteAll(data, order, rw).1.Ok?
    ensures var d := RewriteAll(data, order, rw).1.value;
      d.Keys == data.Keys &&
      (forall i :: 0 <= i < |order| ==> rw(data[order[i]]).1 == Ok(d[order[i]])) &&
      (forall k :: k in data && k !in order ==> d[k] == data[k])
  {
    if order != [] {
      var n := |order| - 1;
      var init := order[..n];
      var k := order[n];
      assert forall i :: 0 <= i < |init| ==> init[i] == order[i];
      assert Distinct(init);
      assert order[..n + 1] == order;
      CompletedBefore(data, order, n, rw);
      var d0 := RewriteAll(data, init, rw).1.value;
      RewriteAllValues(data, init, rw);
      assert k !in init;
      RewriteAllStep(data, order, n, d0, rw);
      assert order[..n + 1] == order;
    }
  }

  /** The events of a rewrite are those of its values, in order, up to the first that raises. */
  lemma {:induction false} RewriteAllEvents(data: map<string, string>, order: seq<string>, rw: Rewrite)
    requires Distinct(order) && forall i :: 0 <= i < |order| ==> order[i] in data
    ensures RewriteAll(data, order, rw).1.Ok? ==> RewriteAll(data, order, rw).0 == Concat(data, order, rw)
  {
    if order != [] {
      var n := |order| - 1;
      var init := order[..n];
      assert forall i :: 0 <= i < |init| ==> init[i] == order[i];
      assert Distinct(init);
      if RewriteAll(data, order, rw).1.Ok? {
        assert order[..n + 1] == order;
        CompletedBefore(data, order, n, rw);
        RewriteAllEvents(data, init, rw);
        RewriteAllValues(data, init, rw);
        var d0 := RewriteAll(data, init, rw).1.value;
        assert order[n] !in init;
        RewriteAllStep(data, order, n, d0, rw);
        assert order[..n + 1] == order;
      }
    }
  }

  /** The icon calls of the values of `order`, each rewritten from its original text. */
  function Concat(data: map<string, string>, order: seq<string>, rw: Rewrite): seq<Event>
    requires forall i :: 0 <= i < |order| ==> order[i] in data
  {
    if order == [] then [] else Concat(data, order[..|order| - 1], rw) + rw(data[order[|order| - 1]]).0
  }

  lemma {:induction false} NotAKeyRewritesNothing(order: seq<string>, rw: Rewrite)
    ensures RewriteAll(map[], order, rw) == ([], Ok(map[]))
  {
    if order != [] {
      NotAKeyRewritesNothing(order[..|order| - 1], rw);
    }
  }

  /** An error in the rewrite stops it: later keys add nothing. */
  lemma {:induction false} CompleteFrom(data: map<string, string>, order: seq<string>, n: nat, rw: Rewrite)
    requires n <= |order| && RewriteAll(data, order[..n], rw).1.Err?
    ensures RewriteAll(data, order, rw) == RewriteAll(data, order[..n], rw)
    decreases |order| - n
  {
    if n < |order| {
      assert order[..n + 1][..n] == order[..n];
      CompleteFrom(data, order, n + 1, rw);
    } else {
      assert order[..n] == order;
    }
  }

  /** What update(data) does with each value rewritten by `rw`: the icon calls of the rewrite,
      then, when the label is not empty, the stripped label handed to the idle callback. */
  function UpdateWith(template: string, data: map<string, string>, order: seq<string>, rw: Rewrite): (seq<Event>, Status) {
    var rewritten := RewriteAll(data, order, rw);
    if rewritten.1.Err? then (rewritten.0, Raised(rewritten.1.error))
    else
      var shown := Label(template, rewritten.1.value);
      (if shown != [] then rewritten.0 + [SetLabel(Strip(shown))] else rewritten.0, Done)
  }

  /** The corrected update(data): a `clear_icon` marker puts back `icon`, the indicator's own icon. */
  function UpdateOutcome(template: string, data: map<string, string>, order: seq<string>, icon: string): (seq<Event>, Status) {
    UpdateWith(template, data, order, Marker(icon))
  }

  /** update(data) as budgiesysmonitor.py writes it. */
  function UpdateAsWritten(template: string, data: map<string, string>, order: seq<string>): (seq<Event>, Status) {
    UpdateWith(template, data, order, v => RewriteAsWritten(v))
  }

  /** The loop over a single key is the rewrite of its value. */
  lemma RewriteOne(data: map<string, string>, k: string, rw: Rewrite)
    requires k in data
    ensures RewriteAll(data, [k], rw).0 == rw(data[k]).0
    ensures RewriteAll(data, [k], rw).1 == if rw(data[k]).1.Ok? then Ok(data[k := rw(data[k]).1.value]) else Err(rw(data[k]).1.error)
  {
    assert [k][..0] == [];
    assert [] + rw(data[k]).0 == rw(data[k]).0;
  }

  /** The value `clear_icon` itself: as written it raises AttributeError before any icon call; the
      corrected rewrite puts the icon back and shows a single blank. */
  lemma ClearIconValue(icon: string)
    ensures RewriteAsWritten("clear_icon") == ([], Err(AttributeError))
    ensures RewriteValue("clear_icon", icon) == ([SetIcon(icon)], Ok(" "))
  {
    var v := "clear_icon";
    assert Lower(v) == v by { LowerKeeps(v); }
    assert Contains(v, "clear_icon");
    assert !Contains(v, "use_icon") by {
      assert v[0] == 'c' && v[1] == 'l' && v[2] == 'e';
    }
    assert Remaining(v, "clear_icon") == " " by {
      assert Before(v, "clear_icon") == [];
      assert Strip([]) == [];
    }
  }

  /** As written, a cycle whose one value is `clear_icon` makes update raise AttributeError before
      any icon call or label, and the tick that delivered it detaches the timer of a live fetcher. */
  lemma ClearIconCycle(template: string)
    ensures UpdateAsWritten(template, map["x" := "clear_icon"], ["x"]) == ([], Raised(AttributeError))
    ensures !TickRule(true, true, true, UpdateAsWritten(template, map["x" := "clear_icon"], ["x"]).1 == Done).1
  {
    ClearIconValue("");
    RewriteOne(map["x" := "clear_icon"], "x", v => RewriteAsWritten(v));
  }

  /** The value `use_icon:p`: as written it raises AttributeError before any icon call;
      the corrected rewrite sets that icon and shows a single blank. */
  lemma UseIconValue()
    ensures RewriteAsWritten("use_icon:p") == ([], Err(AttributeError))
    ensures RewriteValue("use_icon:p", "") == ([SetIcon("p")], Ok(" "))
  {
    UseIconMarkers();
    UseIconPath();
    UseIconRemaining();
  }

  lemma UseIconMarkers()
    ensures Lower("use_icon:p") == "use_icon:p"
    ensures Contains("use_icon:p", "use_icon") && !Contains("use_icon:p", "clear_icon")
  {
    LowerKeeps("use_icon:p");
    UseIconFound();
    UseIconNoClear();
  }

  lemma UseIconFound()
    ensures Contains("use_icon:p", "use_icon")
  {
    var v := "use_icon:p";
    assert v == "use_icon" + ":p";
    assert "use_icon" <= v;
    assert Find(v, "use_icon") == Some(0);
  }

  lemma UseIconNoClear()
    ensures !Contains("use_icon:p", "clear_icon")
  {
    assert "clear_icon"[1] == 'l';
    UseIconChars();
    AbsentCharExcludes("use_icon:p", "clear_icon", 1);
  }

  lemma UseIconPath()
    ensures SecondField("use_icon:p", ":") == Some("p")
  {
    UseIconChars();
    SecondFieldAfter("use_icon", ':', "p");
    assert "use_icon" + [':'] + "p" == "use_icon:p";
  }

  lemma UseIconRemaining()
    ensures Remaining("use_icon:p", "use_icon") == " "
  {
    assert Before("use_icon:p", "use_icon") == [];
    assert Strip([]) == [];
  }

  lemma UseIconChars()
    ensures 'l' !in "use_icon:p" && ':' !in "use_icon" && ':' !in "p"
  {
    var v := "use_icon:p";
    forall i | 0 <= i < |v| ensures v[i] != 'l' {
      assert v[i] in {'u', 's', 'e', '_', 'i', 'c', 'o', 'n', ':', 'p'};
    }
  }

  /** As written, a cycle whose one value is `use_icon:p` makes update raise
      AttributeError before any icon call or label, and the tick detaches a live fetcher's timer. */
  lemma UseIconCycle(template: string)
    ensures UpdateAsWritten(template, map["x" := "use_icon:p"], ["x"]) == ([], Raised(AttributeError))
    ensures !TickRule(true, true, true, UpdateAsWritten(template, map["x" := "use_icon:p"], ["x"]).1 == Done).1
  {
    UseIconValue();
    RewriteOne(map["x" := "use_icon:p"], "x", v => RewriteAsWritten(v));
  }

  /** The corrected update of the same cycle puts the icon back first, completes, and keeps the
      timer of a live fetcher attached. */
  lemma ClearIconCycleCorrected(template: string, icon: string)
    ensures UpdateOutcome(template, map["x" := "clear_icon"], ["x"], icon).1 == Done
    ensures [SetIcon(icon)] <= UpdateOutcome(template, map["x" := "clear_icon"], ["x"], icon).0
    ensures TickRule(true, true, true, UpdateOutcome(template, map["x" := "clear_icon"], ["x"], icon).1 == Done).1
  {
    var data := map["x" := "clear_icon"];
    ClearIconValue(icon);
    RewriteOne(data, "x", Marker(icon));
    var rewritten := RewriteAll(data, ["x"], Marker(icon));
    assert rewritten == ([SetIcon(icon)], Ok(data["x" := " "]));
  }

  lemma OutcomeOfError(template: string, data: map<string, string>, order: seq<string>, icon: string)
    requires RewriteAll(data, order, Marker(icon)).1.Err?
    ensures UpdateOutcome(template, data, order, icon) ==
      (RewriteAll(data, order, Marker(icon)).0, Raised(RewriteAll(data, order, Marker(icon)).1.error))
  {
  }

  lemma OutcomeOfRewrite(template: string, data: map<string, string>, order: seq<string>, icon: string, d: map<string, string>)
    requires RewriteAll(data, order, Marker(icon)).1 == Ok(d)
    ensures var shown := Label(template, d);
      UpdateOutcome(template, data, order, icon) ==
      (if shown != [] then RewriteAll(data, order, Marker(icon)).0 + [SetLabel(Strip(shown))] else RewriteAll(data, order, Marker(icon)).0, Done)
  {
  }

  /** A completed update sets the label exactly when get_label returned a non-empty text, and
      then sets it last. */
  lemma UpdateDelivers(template: string, data: map<string, string>, order: seq<string>, icon: string)
    requires UpdateOutcome(template, data, order, icon).1 == Done
    ensures var events := UpdateOutcome(template, data, order, icon).0;
      var rewritten := RewriteAll(data, order, Marker(icon));
      var shown := Label(template, rewritten.1.value);
      (shown != [] <==> |events| > |rewritten.0|) &&
      (shown != [] ==> events[|events| - 1] == SetLabel(Strip(shown)))
  {
  }

  /** A cycle that yields no values shows "(no output)". */
  lemma EmptyCycleShowsNoOutput(template: string, order: seq<string>, icon: string)
    ensures UpdateOutcome(template, map[], order, icon) == ([SetLabel("(no output)")], Done)
  {
    NotAKeyRewritesNothing(order, Marker(icon));
    var s := "(no output)";
    assert Label(template, map[]) == s;
    assert Strip(s) == s by {
      assert s[0] == '(' && s[|s| - 1] == ')';
      assert TrimStart(s, IsSpace) == s;
      assert TrimEnd(s, IsSpace) == s;
    }
    assert [] + [SetLabel(s)] == [SetLabel(s)];
  }

  lemma Associate(a: seq<Event>, b: seq<Event>, c: seq<Event>)
    ensures a + b + c == a + (b + c)
  {
  }

  class IndicatorSysmonitor {
    /** The calls made on the button, oldest first. */
    var events: seq<Event>
    /** The outcome of the guide fetch that ends __init__, and the key order that fetch met. */
    var initStatus: Status
    var guideOrder: seq<string>
    const icon: string
    const mgr: SensorManager

    predicate Valid()
      reads this, mgr
    {
      mgr.Valid()
    }

    /** The button starts with "Init...", then the settings are loaded, a fetcher is started and
        the guide is fetched once; `host` and `now` are what that fetch sees. A Dafny constructor
        cannot raise, so the guide's outcome is kept in `initStatus`: where it is Raised, the
        program's __init__ raises and no indicator exists. */
    constructor(icon: string, cfg: Option<Config>, host: Host, now: real)
      ensures Valid() && fresh(mgr) && this.icon == icon
      ensures events == [SetLabel("Init...")]
      ensures mgr.Snapshot() == Load(State(DefaultSettings(), None), cfg)
      ensures mgr.fetcher != null && fresh(mgr.fetcher) && mgr.fetcher.alive && mgr.fetcher.armed
      ensures var c := Cycle(Tokens(mgr.settings.customText), mgr.settings.sensors, host, mgr.settings.interval, now, FreshBank);
        mgr.Gauges() == c.bank && initStatus == StatusOf(GuideOf(c, mgr.settings.customText, guideOrder))
    {
      this.icon := icon;
      events := [SetLabel("Init...")];
      mgr := new SensorManager();
      new;
      assert mgr.Gauges() == FreshBank;
      initStatus, guideOrder := LoadSettings(cfg, host, now);
    }

    /** update(data), with `order` the order the dictionary yields its keys. */
    method Update(data: map<string, string>, order: seq<string>) returns (s: Status)
      requires Distinct(order) && (forall i :: 0 <= i < |order| ==> order[i] in data)
      modifies this
      ensures initStatus == old(initStatus) && guideOrder == old(guideOrder)
      ensures events == old(events) + UpdateOutcome(mgr.settings.customText, data, order, icon).0
      ensures s == UpdateOutcome(mgr.settings.customText, data, order, icon).1
    {
      var r := ApplyMarkers(data, order, Marker(icon));
      if r.Err? {
        OutcomeOfError(mgr.settings.customText, data, order, icon);
        return Raised(r.error);
      }
      OutcomeOfRewrite(mgr.settings.customText, data, order, icon, r.value);
      var shown := mgr.GetLabel(r.value);
      if shown != [] {
        Associate(old(events), RewriteAll(data, order, Marker(icon)).0, [SetLabel(Strip(shown))]);
        events := events + [SetLabel(Strip(shown))];
      }
      return Done;
    }

    /** The loop of update() over the values, `rw` rewriting each one. */
    method ApplyMarkers(data: map<string, string>, order: seq<string>, rw: Rewrite) returns (r: Result<map<string, string>>)
      requires Distinct(order) && (forall i :: 0 <= i < |order| ==> order[i] in data)
      modifies this
      ensures initStatus == old(initStatus) && guideOrder == old(guideOrder)
      ensures events == old(events) + RewriteAll(data, order, rw).0
      ensures r == RewriteAll(data, order, rw).1
    {
      var d := data;
      for i := 0 to |order|
        invariant RewriteAll(data, order[..i], rw).1 == Ok(d) && d.Keys == data.Keys
        invariant events == old(events) + RewriteAll(data, order[..i], rw).0
        invariant initStatus == old(initStatus) && guideOrder == old(guideOrder)
      {
        var k := order[i];
        RewriteAllStep(data, order, i, d, rw);
        var (more, w) := rw(d[k]);
        events := events + more;
        Associate(old(events), RewriteAll(data, order[..i], rw).0, more);
        if w.Err? {
          CompleteFrom(data, order, i + 1, rw);
          return Err(w.error);
        }
        d := d[k := w.value];
      }
      assert order[..|order|] == order;
      return Ok(d);
    }

    /** update_indicator_guide: the guide is fetched and discarded; only its exception, if any,
        and the sensors' new state remain. */
    method UpdateIndicatorGuide(host: Host, now: real) returns (s: Status, order: seq<string>)
      requires Valid()
      modifies mgr.net, mgr.netcomp, mgr.upordown, mgr.publicip
      ensures var c := Cycle(Tokens(mgr.settings.customText), mgr.settings.sensors, host, mgr.settings.interval, now, old(mgr.Gauges()));
        mgr.Gauges() == c.bank && s == StatusOf(GuideOf(c, mgr.settings.customText, order))
    {
      var guide;
      guide, order := mgr.GetGuide(host, now);
      s := StatusOf(guide);
    }

    /** load_settings: the settings are loaded, the old fetcher is stopped and a new one started,
        and then the guide is fetched, which may raise. */
    method LoadSettings(cfg: Option<Config>, host: Host, now: real) returns (s: Status, order: seq<string>)
      requires Valid()
      modifies mgr, mgr.fetcher, mgr.net, mgr.netcomp, mgr.upordown, mgr.publicip
      ensures Valid()
      ensures mgr.Snapshot() == Load(old(mgr.Snapshot()), cfg)
      ensures mgr.fetcher != null && fresh(mgr.fetcher) && mgr.fetcher.alive && mgr.fetcher.armed
      ensures old(mgr.fetcher) != null ==> !old(mgr.fetcher).alive
      ensures var c := Cycle(Tokens(mgr.settings.customText), mgr.settings.sensors, host, mgr.settings.interval, now, old(mgr.Gauges()));
        mgr.Gauges() == c.bank && s == StatusOf(GuideOf(c, mgr.settings.customText, order))
    {
      mgr.LoadSettings(cfg);
      mgr.InitiateFetcher();
      s, order := UpdateIndicatorGuide(host, now);
    }

    method UpdateSettings()
      modifies mgr, mgr.fetcher
      ensures mgr.Snapshot() == old(mgr.Snapshot())
      ensures mgr.fetcher != null && fresh(mgr.fetcher) && mgr.fetcher.alive && mgr.fetcher.armed
      ensures old(mgr.fetcher) != null ==> !old(mgr.fetcher).alive
    {
      mgr.InitiateFetcher();
    }

    /** StatusFetcher.run for a fetcher `f` whose parent is this indicator, on a tick of its timer:
        one cycle is fetched and handed to update(); the timer stays attached only when both
        returned and `f` was not stopped. `order` is the order the cycle's dictionary yields. */
    method Run(f: StatusFetcher, host: Host, now: real) returns (s: Status, order: seq<string>)
      requires Valid() && f.armed
      modifies this, f, mgr.net, mgr.netcomp, mgr.upordown, mgr.publicip
      ensures initStatus == old(initStatus) && guideOrder == old(guideOrder)
      ensures f.alive == old(f.alive) && f.armed == (s == Done && f.alive)
      ensures var c := Cycle(Tokens(mgr.settings.customText), mgr.settings.sensors, host, mgr.settings.interval, now, old(mgr.Gauges()));
        f.armed == TickRule(old(f.alive), true, c.res.Ok?, s == Done).1 &&
        mgr.Gauges() == c.bank &&
        (c.res.Err? ==> s == Raised(c.res.error) && events == old(events)) &&
        (c.res.Ok? ==> (events, s) == (old(events) + UpdateOutcome(mgr.settings.customText, c.res.value, order, icon).0,
                                       UpdateOutcome(mgr.settings.customText, c.res.value, order, icon).1))
    {
      var data := mgr.GetResults(host, now);
      order := [];
      if data.Err? {
        f.armed := false;
        return Raised(data.error), order;
      }
      order := KeysOf(data.value);
      s := Update(data.value, order);
      f.armed := s == Done && f.alive;
    }
  }

}
