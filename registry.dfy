/** SensorManager (sensors.py): the registry of sensor keys, the matcher compiled from them, the
    settings they live in, one fetch cycle over the label template, and the fetcher that repeats
    it. */
module Registry {
  import opened Outcome
  import opened Text
  import opened Patterns
  import opened Template
  import opened Sensors
  import opened Units

  /** A value of settings['sensors']: (desc, cmd). */
  datatype Entry = Entry(desc: string, cmd: Command)

  datatype Settings = Settings(customText: string, interval: real, onStartup: bool, sensors: map<string, Entry>)

  /** The registry as the pure operations see it: the settings, and the key set the matcher
      supported_sensors was last compiled from (None until update_regex first runs). */
  datatype State = State(settings: Settings, matcher: Option<set<string>>)

  /** What an operation that raises or returns None leaves behind. */
  datatype Change = Change(status: Status, state: State)

  /** The registry entries of the built-ins in `ks`, each with command True. */
  function BuiltinEntries(ks: seq<Kind>): map<string, Entry> {
    if ks == [] then map[]
    else BuiltinEntries(ks[..|ks| - 1])[Name(ks[|ks| - 1]) := Entry(Desc(ks[|ks| - 1]), Builtin)]
  }

  /** The settings the constructor leaves, before anything is loaded. */
  function DefaultSettings(): Settings {
    Settings("cpu: {cpu} mem: {mem}", 2.0, false, BuiltinEntries(Instances))
  }

  /** Every built-in is registered under its key, with command True, and nothing else is. */
  lemma {:induction false} BuiltinEntriesOf(ks: seq<Kind>)
    ensures forall i :: 0 <= i < |ks| ==> Name(ks[i]) in BuiltinEntries(ks)
    ensures forall key :: key in BuiltinEntries(ks) ==> BuiltinEntries(ks)[key].cmd == Builtin
    ensures forall key :: key in BuiltinEntries(ks) ==> exists i :: 0 <= i < |ks| && key == Name(ks[i])
  {
    if ks != [] {
      var init := ks[..|ks| - 1];
      BuiltinEntriesOf(init);
      assert forall i :: 0 <= i < |init| ==> ks[i] == init[i];
    }
  }

  lemma DefaultsRegisterEveryKind(k: Kind)
    ensures Name(k) in DefaultSettings().sensors && DefaultSettings().sensors[Name(k)].cmd == Builtin
  {
    EveryKindListed(k);
    BuiltinEntriesOf(Instances);
    var i :| 0 <= i < |Instances| && Instances[i] == k;
  }

  /** The matcher is compiled from exactly the current keys, or not at all. */
  predicate Synced(st: State) {
    st.matcher.None? || st.matcher.value == st.settings.sensors.Keys
  }

  /** exists(name): a full match against the alternation of the keys; before anything was
      compiled the matcher is None and the call raises. */
  function Match(matcher: Option<set<string>>, name: string): Result<bool> {
    match matcher
    case None => Err(MatcherMissing)
    case Some(keys) => Ok(MatchesAny(keys, name))
  }

  function WithSensors(st: State, sensors: map<string, Entry>): State {
    var s := st.settings.(sensors := sensors);
    State(s, Some(sensors.Keys))
  }

  // ---------------------------------------------------------------------------------------------
  // add, delete, edit

  function AddOp(st: State, name: string, desc: string, cmd: Command): Change {
    match Match(st.matcher, name)
    case Err(e) => Change(Raised(e), st)
    case Ok(taken) =>
      if taken then Change(Raised(SensorError("Sensor name already in use.")), st)
      else Change(Done, WithSensors(st, st.settings.sensors[name := Entry(desc, cmd)]))
  }

  function DeleteOp(st: State, name: string): Change {
    var sensors := st.settings.sensors;
    if name !in sensors then Change(Raised(SensorError("Sensor is not defined.")), st)
    else if sensors[name].cmd == Builtin then Change(Raised(SensorError("Can not delete default sensors.")), st)
    else Change(Done, WithSensors(st, sensors - {name}))
  }

  /** The guards edit() applies before changing anything; None when it goes ahead. */
  function EditGuard(st: State, name: string, newname: string): Option<Error> {
    var sensors := st.settings.sensors;
    if name !in sensors then Some(SensorError("Sensor does not exists."))
    else if sensors[name].cmd == Builtin then Some(SensorError("Can not edit default sensors."))
    else if newname != name && newname in sensors then Some(SensorError("Sensor name already in use."))
    else None
  }

  /** The corrected edit(), which the rest of the model uses: the entry moves to the new key (or is
      updated in place when the name is kept), and the `{name}` placeholders of the label template
      become `{newname}`. EditAsWritten below is the code as written. */
  function EditOp(st: State, name: string, newname: string, desc: string, cmd: Command): Change {
    match EditGuard(st, name, newname)
    case Some(e) => Change(Raised(e), st)
    case None =>
      var sensors := (st.settings.sensors - {name})[newname := Entry(desc, cmd)];
      var text := Replace(st.settings.customText, "{" + name + "}", "{" + newname + "}");
      Change(Done, State(st.settings.(sensors := sensors, customText := text), Some(sensors.Keys)))
  }

  /** edit() as sensors.py:159-163 writes it: the new key is written, then the old key deleted,
      then every occurrence of name in the template, as a substring, is replaced. */
  function EditAsWritten(st: State, name: string, newname: string, desc: string, cmd: Command): Change {
    match EditGuard(st, name, newname)
    case Some(e) => Change(Raised(e), st)
    case None =>
      var sensors := st.settings.sensors[newname := Entry(desc, cmd)] - {name};
      var text := Replace(st.settings.customText, name, newname);
      Change(Done, State(st.settings.(sensors := sensors, customText := text), Some(sensors.Keys)))
  }

  /** add() raises exactly when the name is already covered by some key (or nothing was compiled
      yet); otherwise it stores the entry, keeps every other entry, and the name exists afterwards
      when it is a plain name. */
  lemma AddSpec(st: State, name: string, desc: string, cmd: Command)
    requires Synced(st)
    ensures var c := AddOp(st, name, desc, cmd);
      (c.status.Raised? <==> st.matcher.None? || MatchesAny(st.matcher.value, name)) &&
      (c.status.Raised? ==> c.state == st) &&
      (c.status == Done ==> c.state.settings.sensors == st.settings.sensors[name := Entry(desc, cmd)]) &&
      (c.status == Done ==> c.state.settings.customText == st.settings.customText) &&
      (c.status == Done ==> Synced(c.state)) &&
      (c.status == Done && IsPlainName(name) ==> Match(c.state.matcher, name) == Ok(true))
  {
    var c := AddOp(st, name, desc, cmd);
    if c.status == Done && IsPlainName(name) {
      PlainKeyMatchesItself(c.state.settings.sensors.Keys, name);
    }
  }

  /** Adding keeps the keys unambiguous: no token is then matched by two keys. */
  lemma AddKeepsUnambiguous(st: State, name: string, desc: string, cmd: Command)
    requires Synced(st) && Unambiguous(st.settings.sensors.Keys) && IsPlainName(name)
    ensures Unambiguous(AddOp(st, name, desc, cmd).state.settings.sensors.Keys)
  {
    if AddOp(st, name, desc, cmd).status == Done {
      AddPlainKeepsUnambiguous(st.settings.sensors.Keys, name);
      assert st.settings.sensors[name := Entry(desc, cmd)].Keys == st.settings.sensors.Keys + {name};
    }
  }

  /** A custom `cpu3` is refused once the CPU key is compiled in. */
  lemma AddCpu3Refused(st: State, desc: string, cmd: Command)
    requires st.matcher.Some? && "cpu\\d*" in st.matcher.value
    ensures AddOp(st, "cpu3", desc, cmd).status == Raised(SensorError("Sensor name already in use."))
  {
    var k := "cpu\\d*";
    assert k[|k| - 3..] == "\\d*";
    assert PatternOf(k) == PrefixDigits("cpu");
    assert "cpu3"[3..] == "3";
    assert Matches(PatternOf(k), "cpu3");
  }
  /** The initial settings are unambiguous: no token is matched by two of the built-ins' keys. */
  lemma DefaultsUnambiguous()
    ensures Unambiguous(DefaultSettings().sensors.Keys)
  {
    var keys := DefaultSettings().sensors.Keys;
    BuiltinEntriesOf(Instances);
    forall k1, k2, t | k1 in keys && k2 in keys && Matches(PatternOf(k1), t) && Matches(PatternOf(k2), t)
      ensures k1 == k2
    {
      var i :| 0 <= i < |Instances| && k1 == Name(Instances[i]);
      var j :| 0 <= j < |Instances| && k2 == Name(Instances[j]);
      KeyMatchClaimed(Instances[i], t);
      KeyMatchClaimed(Instances[j], t);
      ClaimsDisjoint(Instances[i], Instances[j], t);
    }
  }

  /** edit() tests the new name by literal membership, not with the matcher as add() does: a
      custom sensor can be renamed to `cpu3`, which `cpu\d*` also matches, and the keys are then
      ambiguous. */
  lemma EditToCpu3Accepted(st: State, name: string, desc: string, cmd: Command)
    requires name in st.settings.sensors && st.settings.sensors[name].cmd != Builtin
    requires "cpu3" !in st.settings.sensors
    requires "cpu\\d*" in st.settings.sensors && st.settings.sensors["cpu\\d*"].cmd == Builtin
    ensures EditOp(st, name, "cpu3", desc, cmd).status == Done
    ensures !Unambiguous(EditOp(st, name, "cpu3", desc, cmd).state.settings.sensors.Keys)
  {
    var keys := EditOp(st, name, "cpu3", desc, cmd).state.settings.sensors.Keys;
    var k := "cpu\\d*";
    assert k[|k| - 3..] == "\\d*";
    assert PatternOf(k) == PrefixDigits("cpu");
    assert "cpu3"[3..] == "3";
    assert Matches(PatternOf(k), "cpu3");
    assert k != name;
    assert k in keys && "cpu3" in keys;
    assert "cpu3"[|"cpu3"| - 1] == '3';
    assert Matches(PatternOf("cpu3"), "cpu3");
  }


  /** delete() raises for a name that is not a key and for a built-in, changing nothing; otherwise
      it removes exactly that key. */
  lemma DeleteSpec(st: State, name: string)
    ensures var c := DeleteOp(st, name);
      (c.status.Raised? <==> name !in st.settings.sensors || st.settings.sensors[name].cmd == Builtin) &&
      (c.status.Raised? ==> c.state == st) &&
      (c.status == Done ==> c.state.settings.sensors.Keys == st.settings.sensors.Keys - {name}) &&
      (c.status == Done ==> forall k :: k in c.state.settings.sensors ==> c.state.settings.sensors[k] == st.settings.sensors[k]) &&
      (c.status == Done ==> c.state.settings.customText == st.settings.customText && Synced(c.state))
  {
  }

  /** Deleting what add() just stored gives back the registry's entries. */
  lemma {:induction false} DeleteUndoesAdd(st: State, name: string, desc: string, text: string)
    requires Synced(st) && IsPlainName(name) && AddOp(st, name, desc, Shell(text)).status == Done
    ensures var added := AddOp(st, name, desc, Shell(text)).state;
      DeleteOp(added, name).status == Done && DeleteOp(added, name).state.settings == st.settings
  {
    if name in st.settings.sensors {
      PlainKeyMatchesItself(st.settings.sensors.Keys, name);
    }
    assert name !in st.settings.sensors;
    var added := AddOp(st, name, desc, Shell(text)).state;
    assert added.settings.sensors - {name} == st.settings.sensors;
  }

  /** edit() raises for a missing name, a built-in, and a new name that is already a key (by key
      membership, not by the matcher), changing nothing; otherwise the entry is stored under the
      new name, the old key is gone unless it is the new one, and every other entry is kept. */
  lemma EditSpec(st: State, name: string, newname: string, desc: string, cmd: Command)
    ensures var c := EditOp(st, name, newname, desc, cmd);
      var sensors := st.settings.sensors;
      (c.status.Raised? <==> name !in sensors || sensors[name].cmd == Builtin || (newname != name && newname in sensors)) &&
      (c.status.Raised? ==> c.state == st) &&
      (c.status == Done ==> c.state.settings.sensors.Keys == sensors.Keys - {name} + {newname}) &&
      (c.status == Done ==> c.state.settings.sensors[newname] == Entry(desc, cmd)) &&
      (c.status == Done ==> forall k :: k in sensors && k != name && k != newname ==> c.state.settings.sensors[k] == sensors[k]) &&
      (c.status == Done ==> Synced(c.state))
  {
  }

  /** On a well-formed template, a successful edit renames the token and leaves the others. */
  lemma EditRenamesToken(st: State, ps: seq<Piece>, name: string, newname: string, desc: string, cmd: Command)
    requires st.settings.customText == Join(ps) && WellFormed(ps)
    requires '}' !in name && PlainField(newname) && '\n' !in newname
    requires EditOp(st, name, newname, desc, cmd).status == Done
    ensures var before := Tokens(st.settings.customText);
      var after := Tokens(EditOp(st, name, newname, desc, cmd).state.settings.customText);
      |after| == |before| && forall i :: 0 <= i < |after| ==> after[i] == if before[i] == name then newname else before[i]
  {
    RenamePlaceholder(ps, name, newname);
  }

  /** Keeping the name keeps the sensor. */
  lemma EditKeepingName(st: State, name: string, desc: string, cmd: Command)
    requires EditOp(st, name, name, desc, cmd).status == Done
    ensures EditOp(st, name, name, desc, cmd).state.settings.sensors == st.settings.sensors[name := Entry(desc, cmd)]
    ensures EditOp(st, name, name, desc, cmd).state.settings.customText == st.settings.customText
  {
    ReplaceIdentity(st.settings.customText, "{" + name + "}");
  }

  /** As written, an edit that keeps the name deletes the sensor it edits. */
  lemma EditAsWrittenKeepingName(st: State, name: string, desc: string, cmd: Command)
    requires EditAsWritten(st, name, name, desc, cmd).status == Done
    ensures name in st.settings.sensors
    ensures name !in EditAsWritten(st, name, name, desc, cmd).state.settings.sensors
  {
  }

  lemma SubstringRewrite()
    ensures Replace("{mem}", "m", "n") == "{nen}"
  {
    assert Replace("}", "m", "n") == "}";
    assert Replace("m}", "m", "n") == "n}";
    assert Replace("em}", "m", "n") == "en}";
    assert Replace("mem}", "m", "n") == "nen}";
  }

  lemma PlaceholderRewrite()
    ensures Replace("{mem}", "{m}", "{n}") == "{mem}"
  {
    var p := "{m}";
    assert Replace("}", p, "{n}") == "}";
    assert Replace("m}", p, "{n}") == "m}";
    assert Replace("em}", p, "{n}") == "em}";
    assert Replace("mem}", p, "{n}") == "mem}";
    assert !(p <= "{mem}") by { assert "{mem}"[2] != p[2]; }
    assert "{mem}"[1..] == "mem}";
  }

  /** As written, renaming `m` to `n` rewrites the `{mem}` token into `{nen}`; the placeholder
      rewrite leaves it alone. */
  lemma EditAsWrittenRewritesOtherTokens(st: State, desc: string, cmd: Command)
    requires st.settings.customText == "{mem}" && EditGuard(st, "m", "n").None?
    ensures EditAsWritten(st, "m", "n", desc, cmd).state.settings.customText == "{nen}"
    ensures EditOp(st, "m", "n", desc, cmd).state.settings.customText == "{mem}"
  {
    SubstringRewrite();
    PlaceholderRewrite();
  }

  // ---------------------------------------------------------------------------------------------
  // load_settings

  /** A key of the parsed configuration: absent (cfg[key] raises KeyError), null, or a value. */
  datatype Setting<T> = Missing | Null | Given(value: T)

  datatype Config = Config(customText: Setting<string>, interval: Setting<real>, onStartup: Setting<bool>,
                           sensors: Setting<map<string, Entry>>)

  /** load_settings over the parsed file (None when it cannot be read or parsed): each key that is
      not null is applied in turn, the saved sensors merged over the current ones, and the matcher
      rebuilt; a missing key raises, which the method logs, leaving what was applied before it and
      the old matcher. */
  function Load(st: State, cfg: Option<Config>): State {
    match cfg
    case None => st
    case Some(c) =>
      var s0 := st.settings;
      if c.customText.Missing? then st
      else
        var s1 := if c.customText.Given? then s0.(customText := c.customText.value) else s0;
        if c.interval.Missing? then State(s1, st.matcher)
        else
          var s2 := if c.interval.Given? then s1.(interval := c.interval.value) else s1;
          if c.onStartup.Missing? then State(s2, st.matcher)
          else
            var s3 := if c.onStartup.Given? then s2.(onStartup := c.onStartup.value) else s2;
            if c.sensors.Missing? then State(s3, st.matcher)
            else
              var s4 := if c.sensors.Given? then s3.(sensors := s3.sensors + c.sensors.value) else s3;
              State(s4, Some(s4.sensors.Keys))
  }

  predicate Complete(c: Config) {
    !c.customText.Missing? && !c.interval.Missing? && !c.onStartup.Missing? && !c.sensors.Missing?
  }

  /** A complete configuration sets every non-null value, keeps the current value of every null
      one, merges the saved sensors over the current ones (saved entries win, no key is lost), and
      recompiles the matcher. */
  lemma LoadComplete(st: State, c: Config)
    requires Complete(c)
    ensures var s := Load(st, Some(c)).settings;
      (s.customText == if c.customText.Given? then c.customText.value else st.settings.customText) &&
      (s.interval == if c.interval.Given? then c.interval.value else st.settings.interval) &&
      (s.onStartup == if c.onStartup.Given? then c.onStartup.value else st.settings.onStartup) &&
      st.settings.sensors.Keys <= s.sensors.Keys &&
      (forall k :: k in s.sensors ==> s.sensors[k] == if c.sensors.Given? && k in c.sensors.value then c.sensors.value[k] else st.settings.sensors[k]) &&
      Load(st, Some(c)).matcher == Some(s.sensors.Keys)
  {
  }

  /** A configuration that lacks a key changes nothing from that key on, and leaves the old
      matcher; sensors are never dropped; and an unreadable file changes nothing. */
  lemma LoadIncomplete(st: State, cfg: Option<Config>)
    requires cfg.None? || !Complete(cfg.value)
    ensures Load(st, cfg).matcher == st.matcher
    ensures Load(st, cfg).settings.sensors == st.settings.sensors
    ensures cfg.None? || cfg.value.customText.Missing? ==> Load(st, cfg) == st
  {
  }

  /** Loading keeps the matcher in step with the keys (add, delete and edit state it in their own
      lemmas). */
  lemma LoadKeepsSynced(st: State, cfg: Option<Config>)
    requires Synced(st)
    ensures Synced(Load(st, cfg))
  {
  }

  // ---------------------------------------------------------------------------------------------
  // One fetch cycle

  /** What get_results yields so far, and the instances' state. */
  datatype Fetched = Fetched(res: Result<map<string, string>>, bank: Bank)

  /** One token of get_results: the built-in that claims it reads its value, kept only when it is
      truthy; a token no built-in claims runs the command stored under it. */
  function TokenStep(t: string, res: map<string, string>, sensors: map<string, Entry>, host: Host,
                     interval: real, now: real, b: Bank): Fetched {
    match FirstClaim(host, t, Instances)
    case Err(e) => Fetched(Err(e), b)
    case Ok(Some(k)) =>
      var rd := Read(k, t, host, interval, now, b);
      if rd.value.Err? then Fetched(Err(rd.value.error), rd.bank)
      else if rd.value.value.Some? && rd.value.value.value != [] then Fetched(Ok(res[t := rd.value.value.value]), rd.bank)
      else Fetched(Ok(res), rd.bank)
    case Ok(None) =>
      if t !in sensors then Fetched(Err(KeyError(t)), b)
      else
        match ScriptExec(host.run, sensors[t].cmd)
        case Err(e) => Fetched(Err(e), b)
        case Ok(out) => Fetched(Ok(res[t := out]), b)
  }

  /** What is done with one token, given the values so far and the instances' state. */
  type Step = (string, map<string, string>, Bank) -> Fetched

  function StepOf(sensors: map<string, Entry>, host: Host, interval: real, now: real): Step {
    (t, res, b) => TokenStep(t, res, sensors, host, interval, now, b)
  }

  /** The tokens, left to right, each handled by `step`; the first exception ends the loop. */
  function Trace(tokens: seq<string>, step: Step, b: Bank): Fetched {
    if tokens == [] then Fetched(Ok(map[]), b)
    else
      var prev := Trace(tokens[..|tokens| - 1], step, b);
      if prev.res.Err? then prev
      else step(tokens[|tokens| - 1], prev.res.value, prev.bank)
  }

  /** get_results over the tokens of the template. */
  function Cycle(tokens: seq<string>, sensors: map<string, Entry>, host: Host, interval: real, now: real, b: Bank): Fetched {
    Trace(tokens, StepOf(sensors, host, interval, now), b)
  }

  /** One more token of the loop. */
  lemma TraceStep(tokens: seq<string>, i: nat, step: Step, b: Bank)
    requires i < |tokens| && Trace(tokens[..i], step, b).res.Ok?
    ensures Trace(tokens[..i + 1], step, b) ==
      step(tokens[i], Trace(tokens[..i], step, b).res.value, Trace(tokens[..i], step, b).bank)
  {
    assert tokens[..i + 1][..i] == tokens[..i];
  }

  /** An exception ends the loop: later tokens are not looked at. */
  lemma {:induction false} TraceErrorSticks(tokens: seq<string>, n: nat, step: Step, b: Bank)
    requires n <= |tokens| && Trace(tokens[..n], step, b).res.Err?
    ensures Trace(tokens, step, b) == Trace(tokens[..n], step, b)
    decreases |tokens| - n
  {
    if n < |tokens| {
      assert tokens[..n + 1][..n] == tokens[..n];
      TraceErrorSticks(tokens, n + 1, step, b);
    } else {
      assert tokens[..n] == tokens;
    }
  }

  /** What one token does to the values: none is removed, only the token's own may change and a
      new value is never empty, and a token no built-in claims gets its command's output. */
  predicate StepKeeps(t: string, before: map<string, string>, after: map<string, string>, sensors: map<string, Entry>, host: Host) {
    (forall s :: s in before ==> s in after) &&
    (forall s :: s in after && s != t ==> s in before && after[s] == before[s]) &&
    (t in after ==> after[t] != [] || (t in before && after[t] == before[t])) &&
    (FirstClaim(host, t, Instances) == Ok(None) ==>
      t in sensors && t in after && ScriptExec(host.run, sensors[t].cmd) == Ok(after[t]))
  }

  lemma TokenStepKeeps(t: string, res: map<string, string>, sensors: map<string, Entry>, host: Host,
                       interval: real, now: real, b: Bank)
    requires TokenStep(t, res, sensors, host, interval, now, b).res.Ok?
    ensures StepKeeps(t, res, TokenStep(t, res, sensors, host, interval, now, b).res.value, sensors, host)
  {
  }

  /** The values of a cycle that completes: every key is one of the template's tokens, every value
      is non-empty, and every token no built-in claims is present, with its command's output. */
  /** What a completed cycle over `tokens` promises of its values `m`. */
  predicate CycleFacts(tokens: seq<string>, m: map<string, string>, sensors: map<string, Entry>, host: Host) {
    (forall t :: t in m ==> t in tokens && m[t] != []) &&
    (forall i :: 0 <= i < |tokens| && FirstClaim(host, tokens[i], Instances) == Ok(None) ==>
      tokens[i] in sensors && tokens[i] in m && ScriptExec(host.run, sensors[tokens[i]].cmd) == Ok(m[tokens[i]]))
  }

  /** One more token keeps those promises. */
  lemma StepExtends(init: seq<string>, t: string, m0: map<string, string>, m1: map<string, string>,
                    sensors: map<string, Entry>, host: Host)
    requires CycleFacts(init, m0, sensors, host) && StepKeeps(t, m0, m1, sensors, host)
    ensures CycleFacts(init + [t], m1, sensors, host)
  {
    var tokens := init + [t];
    assert forall i :: 0 <= i < |init| ==> tokens[i] == init[i];
    assert forall s :: s in init ==> s in tokens;
  }

  lemma {:induction false} CycleValues(tokens: seq<string>, sensors: map<string, Entry>, host: Host, interval: real, now: real, b: Bank)
    requires Cycle(tokens, sensors, host, interval, now, b).res.Ok?
    ensures var m := Cycle(tokens, sensors, host, interval, now, b).res.value;
      (forall t :: t in m ==> t in tokens && m[t] != []) &&
      (forall i :: 0 <= i < |tokens| && FirstClaim(host, tokens[i], Instances) == Ok(None) ==>
        tokens[i] in sensors && tokens[i] in m && ScriptExec(host.run, sensors[tokens[i]].cmd) == Ok(m[tokens[i]]))
  {
    var step := StepOf(sensors, host, interval, now);
    if tokens != [] {
      var n := |tokens| - 1;
      var init := tokens[..n];
      var t := tokens[n];
      var prev := Trace(init, step, b);
      assert tokens[..n + 1] == tokens;
      assert init + [t] == tokens;
      assert prev.res.Ok?;
      CycleValues(init, sensors, host, interval, now, b);
      var m0 := prev.res.value;
      var m1 := Trace(tokens, step, b).res.value;
      assert StepKeeps(t, m0, m1, sensors, host) by {
        TraceStep(tokens, n, step, b);
        TokenStepKeeps(t, m0, sensors, host, interval, now, prev.bank);
      }
      StepExtends(init, t, m0, m1, sensors, host);
    }
    assert CycleFacts(tokens, Trace(tokens, step, b).res.value, sensors, host);
  }

  // ---------------------------------------------------------------------------------------------
  // The label guide

  /** get_guide over one cycle: the cycle's exception, or the template formatted over the sample
      values, `order` being the order in which the cycle's dictionary yields its keys. */
  function GuideOf(c: Fetched, template: string, order: seq<string>): Result<string> {
    if c.res.Err? then Err(c.res.error) else Guide(template, c.res.value, order)
  }

  /** The exception a call raises, its result discarded. */
  function StatusOf(r: Result<string>): Status {
    if r.Ok? then Done else Raised(r.error)
  }

  /** A saved template `{cpu3}` on a two-CPU machine makes get_guide raise, whatever the order. */
  lemma GuideRaisesOnBadCpu(sensors: map<string, Entry>, host: Host, interval: real, now: real, b: Bank, order: seq<string>)
    requires host.cpuCount == 2
    ensures GuideOf(Cycle(Tokens("{cpu3}"), sensors, host, interval, now, b), "{cpu3}", order)
            == Err(SensorError("Invalid number of CPUs."))
  {
    TokensOfCpu3();
    CycleOfCpu3(sensors, host, interval, now, b);
  }

  lemma TokensOfCpu3()
    ensures Tokens("{cpu3}") == ["cpu3"]
  {
    assert Join([Field("cpu3")]) == "{cpu3}";
    assert !IsDigit("cpu3"[0]);
    assert forall c :: c in "cpu3" ==> c in {'c', 'p', 'u', '3'};
    TokensOfJoin([Field("cpu3")]);
  }

  /** The cycle over the one token `cpu3` on a two-CPU machine raises from the CPU sensor's check. */
  lemma CycleOfCpu3(sensors: map<string, Entry>, host: Host, interval: real, now: real, b: Bank)
    requires host.cpuCount == 2
    ensures Cycle(["cpu3"], sensors, host, interval, now, b) == Fetched(Err(SensorError("Invalid number of CPUs.")), b)
  {
    var e := SensorError("Invalid number of CPUs.");
    assert FirstClaim(host, "cpu3", Instances) == Err(e) by {
      CpuTokenClaimed(host.(cpuCount := 4));
      assert host.(cpuCount := 4).(cpuCount := 2) == host;
    }
    var tokens, step := ["cpu3"], StepOf(sensors, host, interval, now);
    assert Trace(tokens[..0], step, b) == Fetched(Ok(map[]), b) by { assert tokens[..0] == []; }
    assert step("cpu3", map[], b) == Fetched(Err(e), b);
    TraceStep(tokens, 0, step, b);
    assert tokens[..1] == tokens;
  }



  // ---------------------------------------------------------------------------------------------
  // The fetcher's tick

  /** StatusFetcher.run as its timer sees it: when the timer is still attached, the cycle is fetched
      and, if that returns, handed to the parent; the timer stays attached only if delivery returned
      and `alive` is still set (an exception escaping the callback detaches it too). */
  function TickRule(alive: bool, armed: bool, fetched: bool, delivered: bool): (bool, bool) {
    if !armed then (false, false) else (fetched, fetched && delivered && alive)
  }

  /** The number of deliveries a fetcher makes over successive ticks, each tick given by whether its
      fetch and its delivery returned. */
  function Deliveries(alive: bool, armed: bool, ticks: seq<(bool, bool)>): nat {
    if ticks == [] then 0
    else
      var (delivers, again) := TickRule(alive, armed, ticks[0].0, ticks[0].1);
      (if delivers then 1 else 0) + Deliveries(alive, again, ticks[1..])
  }

  /** A stopped fetcher delivers at most once more: the tick already armed still runs. */
  lemma {:induction false} AtMostOneAfterStop(armed: bool, ticks: seq<(bool, bool)>)
    ensures Deliveries(false, armed, ticks) <= 1
  {
    if ticks != [] {
      NothingOnceDetached(ticks[1..]);
    }
  }

  lemma {:induction false} NothingOnceDetached(ticks: seq<(bool, bool)>)
    ensures Deliveries(false, false, ticks) == 0
  {
    if ticks != [] {
      NothingOnceDetached(ticks[1..]);
    }
  }

  /** A live fetcher whose cycles all succeed delivers on every tick. */
  lemma {:induction false} LiveDeliversEveryTick(ticks: seq<(bool, bool)>)
    requires forall i :: 0 <= i < |ticks| ==> ticks[i] == (true, true)
    ensures Deliveries(true, true, ticks) == |ticks|
  {
    if ticks != [] {
      LiveDeliversEveryTick(ticks[1..]);
    }
  }

  /** The fetcher's own state: the `alive` event, and whether its GLib timer is still attached. */
  class StatusFetcher {
    var alive: bool
    var armed: bool

    constructor()
      ensures alive && armed
    {
      alive := true;
      armed := true;
    }

    method Stop()
      modifies this
      ensures !alive && armed == old(armed)
    {
      alive := false;
    }
  }

  // ---------------------------------------------------------------------------------------------
  // The manager

  class SensorManager {
    var settings: Settings
    var matcher: Option<set<string>>
    var fetcher: StatusFetcher?
    const net: NetSensor
    const netcomp: NetSensor
    const upordown: CachedSensor
    const publicip: CachedSensor

    /** The instances are distinct objects, with the commands and windows of their classes. Valid()
        reads only constant fields, set once by the constructor, so no method can falsify it: the
        methods that change the settings, the matcher or the fetcher neither require nor ensure
        it, and those that read the instances require it. */
    predicate Valid()
      reads this
    {
      net != netcomp && upordown != publicip &&
      upordown.command == UpOrDownCommand && upordown.window == 10.0 &&
      publicip.command == PublicIPCommand && publicip.window == 600.0
    }

    function Snapshot(): State
      reads this
    {
      State(settings, matcher)
    }

    function Gauges(): Bank
      reads this, net, netcomp, upordown, publicip
    {
      Bank(net.last, netcomp.last, upordown.State(), publicip.State())
    }

    /** The instances are created and each built-in is registered under its key. */
    constructor()
      ensures Valid() && Snapshot() == State(DefaultSettings(), None) && fetcher == null
      ensures fresh(net) && fresh(netcomp) && fresh(upordown) && fresh(publicip)
      ensures Gauges() == FreshBank
    {
      net := new NetSensor();
      netcomp := new NetSensor();
      upordown := new CachedSensor(UpOrDownCommand, 10.0);
      publicip := new CachedSensor(PublicIPCommand, 600.0);
      var sensors: map<string, Entry> := map[];
      for i := 0 to |Instances|
        invariant sensors == BuiltinEntries(Instances[..i])
      {
        assert Instances[..i + 1][..i] == Instances[..i];
        sensors := sensors[Name(Instances[i]) := Entry(Desc(Instances[i]), Builtin)];
      }
      assert Instances[..|Instances|] == Instances;
      settings := Settings("cpu: {cpu} mem: {mem}", 2.0, false, sensors);
      matcher := None;
      fetcher := null;
    }

    /** update_regex: the matcher is compiled from the current keys. */
    method UpdateRegex()
      modifies this
      ensures matcher == Some(settings.sensors.Keys)
      ensures settings == old(settings) && fetcher == old(fetcher)
    {
      var names := settings.sensors.Keys;
      matcher := Some(names);
    }

    function Exists(name: string): Result<bool>
      reads this
    {
      Match(matcher, name)
    }

    /** get(): the instances' checks in order, up to the first that does not return None. */
    method Get(host: Host, t: string) returns (r: Result<Option<Kind>>)
      ensures r == FirstClaim(host, t, Instances)
    {
      var rest := Instances;
      while rest != []
        invariant FirstClaim(host, t, Instances) == FirstClaim(host, t, rest)
      {
        var v := Check(rest[0], host, t);
        if v.Accepts? {
          return Ok(Some(rest[0]));
        } else if v.Rejects? {
          return Err(SensorError(v.msg));
        }
        rest := rest[1..];
      }
      return Ok(None);
    }

    /** check(): every instance's check, for the exception of the first that raises. */
    method CheckAll(host: Host, t: string) returns (s: Status)
      ensures s == CheckEvery(host, t, Instances)
    {
      var rest := Instances;
      while rest != []
        invariant CheckEvery(host, t, Instances) == CheckEvery(host, t, rest)
      {
        var v := Check(rest[0], host, t);
        if v.Rejects? {
          return Raised(SensorError(v.msg));
        }
        rest := rest[1..];
      }
      return Done;
    }

    method Add(name: string, desc: string, cmd: Command) returns (s: Status)
      modifies this
      ensures Change(s, Snapshot()) == AddOp(old(Snapshot()), name, desc, cmd) && fetcher == old(fetcher)
    {
      var taken := Exists(name);
      if taken.Err? {
        return Raised(taken.error);
      }
      if taken.value {
        return Raised(SensorError("Sensor name already in use."));
      }
      settings := settings.(sensors := settings.sensors[name := Entry(desc, cmd)]);
      UpdateRegex();
      return Done;
    }

    method Delete(name: string) returns (s: Status)
      modifies this
      ensures Change(s, Snapshot()) == DeleteOp(old(Snapshot()), name) && fetcher == old(fetcher)
    {
      if name !in settings.sensors {
        return Raised(SensorError("Sensor is not defined."));
      }
      var default := settings.sensors[name].cmd;
      if default == Builtin {
        return Raised(SensorError("Can not delete default sensors."));
      }
      settings := settings.(sensors := settings.sensors - {name});
      UpdateRegex();
      return Done;
    }

    method Edit(name: string, newname: string, desc: string, cmd: Command) returns (s: Status)
      modifies this
      ensures Change(s, Snapshot()) == EditOp(old(Snapshot()), name, newname, desc, cmd) && fetcher == old(fetcher)
    {
      if name !in settings.sensors {
        return Raised(SensorError("Sensor does not exists."));
      }
      var default := settings.sensors[name].cmd;
      if default == Builtin {
        return Raised(SensorError("Can not edit default sensors."));
      }
      if newname != name && newname in settings.sensors {
        return Raised(SensorError("Sensor name already in use."));
      }
      var sensors := settings.sensors - {name};
      sensors := sensors[newname := Entry(desc, cmd)];
      var text := Replace(settings.customText, "{" + name + "}", "{" + newname + "}");
      settings := settings.(sensors := sensors, customText := text);
      UpdateRegex();
      return Done;
    }

    method LoadSettings(cfg: Option<Config>)
      modifies this
      ensures Snapshot() == Load(old(Snapshot()), cfg) && fetcher == old(fetcher)
    {
      if cfg.None? {
        return;
      }
      var c := cfg.value;
      if c.customText.Missing? {
        return;
      }
      if c.customText.Given? {
        settings := settings.(customText := c.customText.value);
      }
      if c.interval.Missing? {
        return;
      }
      if c.interval.Given? {
        settings := settings.(interval := c.interval.value);
      }
      if c.onStartup.Missing? {
        return;
      }
      if c.onStartup.Given? {
        settings := settings.(onStartup := c.onStartup.value);
      }
      if c.sensors.Missing? {
        return;
      }
      if c.sensors.Given? {
        var merged := settings.sensors + c.sensors.value;
        settings := settings.(sensors := merged);
      }
      UpdateRegex();
    }

    /** set_custom_text. */
    method SetCustomText(text: string)
      modifies this
      ensures Snapshot() == old(Snapshot()).(settings := old(settings).(customText := text)) && fetcher == old(fetcher)
    {
      settings := settings.(customText := text);
    }

    /** set_interval. */
    method SetInterval(interval: real)
      modifies this
      ensures Snapshot() == old(Snapshot()).(settings := old(settings).(interval := interval)) && fetcher == old(fetcher)
    {
      settings := settings.(interval := interval);
    }

    /** get_label over the current template. */
    function GetLabel(data: map<string, string>): string
      reads this
    {
      Label(settings.customText, data)
    }

    /** initiate_fetcher: the running fetcher, if any, is stopped before a new one starts. */
    method InitiateFetcher()
      modifies this, fetcher
      ensures fetcher != null && fresh(fetcher) && fetcher.alive && fetcher.armed
      ensures old(fetcher) != null ==> !old(fetcher).alive && old(fetcher).armed == old(fetcher.armed)
      ensures Snapshot() == old(Snapshot())
    {
      if fetcher != null {
        fetcher.Stop();
      }
      fetcher := new StatusFetcher();
    }

    /** The net sensor: the rates since the last reading, which becomes this one. */
    method NetValue(t: string, host: Host, now: real) returns (r: Result<Option<string>>)
      requires Valid()
      modifies net
      ensures Reading(r, Gauges()) == Read(Net, t, host, settings.interval, now, old(Gauges()))
    {
      var rates := net.Rates(host.nics, settings.interval);
      if rates.Err? {
        return Err(rates.error);
      }
      var down := HumanText(host, rates.value.0);
      var up := HumanText(host, rates.value.1);
      return Ok(Some("\U{2193} " + PadLeft(down, 9) + "/s \U{2191} " + PadLeft(up, 9) + "/s"));
    }

    method NetCompValue(t: string, host: Host, now: real) returns (r: Result<Option<string>>)
      requires Valid()
      modifies netcomp
      ensures Reading(r, Gauges()) == Read(NetComp, t, host, settings.interval, now, old(Gauges()))
    {
      ghost var before := Gauges();
      var rates := netcomp.Rates(host.nics, settings.interval);
      assert Gauges() == before.(netcomp := NetTotals(host.nics));
      if rates.Err? {
        return Err(rates.error);
      }
      var both := HumanText(host, rates.value.0 + rates.value.1);
      return Ok(Some("\U{21F5} " + PadLeft(both, 9) + "/s"));
    }

    /** The two sensors whose value is a cached command output. */
    method CachedValue(k: Kind, t: string, host: Host, now: real) returns (r: Result<Option<string>>)
      requires Valid() && (k == UporDown || k == PublicIP)
      modifies upordown, publicip
      ensures Reading(r, Gauges()) == Read(k, t, host, settings.interval, now, old(Gauges()))
    {
      var v;
      if k == UporDown {
        v := upordown.Value(host.run, now);
      } else {
        v := publicip.Value(host.run, now);
      }
      r := if v.Ok? then Ok(Some(v.value)) else Err(v.error);
    }

    /** The sensors that keep no state between readings. */
    method PlainValue(k: Kind, t: string, host: Host, now: real) returns (r: Result<Option<string>>)
      requires k != Net && k != NetComp && k != UporDown && k != PublicIP
      ensures Reading(r, Gauges()) == Read(k, t, host, settings.interval, now, Gauges())
    {
      if k == CPU {
        r := CpuValue(host, t);
        assert Read(k, t, host, settings.interval, now, Gauges()) == Reading(CpuReading(host, t), Gauges());
      } else if k == FS {
        r := FsValue(host, t);
        assert Read(k, t, host, settings.interval, now, Gauges()) == Reading(FsReading(host, t), Gauges());
      } else if k == Swap {
        var swap := FetchSwap(host.swaps);
        r := SwapText(host, swap);
        assert Read(k, t, host, settings.interval, now, Gauges()) == Reading(SwapText(host, SwapReport(host.swaps)), Gauges());
      } else if k == TotalNet {
        var totals := NetTotals(host.nics);
        if settings.interval == 0.0 {
          r := Err(ZeroDivision);
        } else {
          var both := HumanText(host, totals.0 as real / settings.interval + totals.1 as real / settings.interval);
          r := Ok(Some(" \U{03A3} " + PadLeft(both, 9)));
        }
        assert r == (var x := TotalNetText(host, settings.interval); if x.Ok? then Ok(Some(x.value)) else Err(x.error));
      } else {
        ReadKeepsBank(k, t, host, settings.interval, now, Gauges());
        r := Read(k, t, host, settings.interval, now, Gauges()).value;
      }
    }

    /** instance.get_value(token) for the built-in k, on the manager's instances. */
    method GetValue(k: Kind, t: string, host: Host, now: real) returns (r: Result<Option<string>>)
      requires Valid()
      modifies net, netcomp, upordown, publicip
      ensures Reading(r, Gauges()) == Read(k, t, host, settings.interval, now, old(Gauges()))
    {
      if k == Net {
        r := NetValue(t, host, now);
      } else if k == NetComp {
        r := NetCompValue(t, host, now);
      } else if k == UporDown || k == PublicIP {
        r := CachedValue(k, t, host, now);
      } else {
        r := PlainValue(k, t, host, now);
      }
    }

    /** The body of get_results' loop, for one token: the instance that claims it reads its value,
        otherwise the command stored under it runs. */
    method FetchToken(t: string, res: map<string, string>, host: Host, now: real) returns (r: Result<map<string, string>>)
      requires Valid()
      modifies net, netcomp, upordown, publicip
      ensures Fetched(r, Gauges()) == TokenStep(t, res, settings.sensors, host, settings.interval, now, old(Gauges()))
    {
      var instance := Get(host, t);
      if instance.Err? {
        return Err(instance.error);
      }
      if instance.value.Some? {
        var value := GetValue(instance.value.value, t, host, now);
        if value.Err? {
          return Err(value.error);
        }
        if value.value.Some? && value.value.value != [] {
          return Ok(res[t := value.value.value]);
        }
        return Ok(res);
      }
      if t !in settings.sensors {
        return Err(KeyError(t));
      }
      var out := ScriptExec(host.run, settings.sensors[t].cmd);
      if out.Err? {
        return Err(out.error);
      }
      return Ok(res[t := out.value]);
    }

    /** get_guide: one cycle of get_results, then the template formatted over the sample values;
        `order` is the order in which the cycle's dictionary yields its keys. */
    method GetGuide(host: Host, now: real) returns (r: Result<string>, order: seq<string>)
      requires Valid()
      modifies net, netcomp, upordown, publicip
      ensures var c := Cycle(Tokens(settings.customText), settings.sensors, host, settings.interval, now, old(Gauges()));
        Gauges() == c.bank && r == GuideOf(c, settings.customText, order) &&
        (c.res.Ok? ==> Distinct(order) && forall k :: k in c.res.value <==> k in order)
    {
      var data := GetResults(host, now);
      order := [];
      if data.Err? {
        return Err(data.error), order;
      }
      order := KeysOf(data.value);
      var d := SampleData(data.value, order);
      r := Format(settings.customText, d);
    }

    /** get_results: one value per token of the template. */
    method GetResults(host: Host, now: real) returns (r: Result<map<string, string>>)
      requires Valid()
      modifies net, netcomp, upordown, publicip
      ensures Fetched(r, Gauges()) == Cycle(Tokens(settings.customText), settings.sensors, host, settings.interval, now, old(Gauges()))
    {
      var tokens := Tokens(settings.customText);
      ghost var step := StepOf(settings.sensors, host, settings.interval, now);
      var res: map<string, string> := map[];
      for i := 0 to |tokens|
        invariant Fetched(Ok(res), Gauges()) == Trace(tokens[..i], step, old(Gauges()))
      {
        TraceStep(tokens, i, step, old(Gauges()));
        var next := FetchToken(tokens[i], res, host, now);
        if next.Err? {
          TraceErrorSticks(tokens, i + 1, step, old(Gauges()));
          return next;
        }
        res := next.value;
      }
      assert tokens[..|tokens|] == tokens;
      return Ok(res);
    }
  }
}
