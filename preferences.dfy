/** The preferences dialog (preferences.py): the check of the label template and interval before
    they are committed, and the sensor list whose delete and edit buttons change the registry. */
module Prefs {
  import opened Outcome
  import opened Text
  import opened Patterns
  import opened Template
  import opened Sensors
  import opened Registry
  import opened Indicator

  // ---------------------------------------------------------------------------------------------
  // update_parent

  /** The two checks update_parent makes of one `{token}` of the template: it must exist, and
      then pass every instance's check. */
  function TokenCheck(matcher: Option<set<string>>, host: Host, t: string): Status {
    match Match(matcher, t)
    case Err(e) => Raised(e)
    case Ok(found) =>
      if !found then Raised(SensorError("{" + t + "} sensor not supported."))
      else CheckEvery(host, t, Instances)
  }

  /** The checks of update_parent for a given registry and host, as a function of the token. */
  function Validator(matcher: Option<set<string>>, host: Host): string -> Status {
    t => TokenCheck(matcher, host, t)
  }

  /** The token loop, each token checked by `check`: the tokens in order, up to the first that
      raises. */
  function TokensCheck(check: string -> Status, ts: seq<string>): Status {
    if ts == [] then Done
    else if check(ts[0]).Raised? then check(ts[0])
    else TokensCheck(check, ts[1..])
  }

  /** float(text) of the interval entry (None when it raises ValueError), then the lower bound. */
  function IntervalOf(parsed: Option<real>): (r: Result<real>)
    ensures r.Ok? <==> parsed.Some? && parsed.value >= 1.0
    ensures r.Ok? ==> r.value == parsed.value
    ensures parsed.None? ==> r == Err(SensorError("Interval value is not valid."))
    ensures parsed.Some? && parsed.value < 1.0 ==> r == Err(SensorError("Interval value should be greater then or equal to 1 "))
  {
    match parsed
    case None => Err(SensorError("Interval value is not valid."))
    case Some(v) =>
      if v < 1.0 then Err(SensorError("Interval value should be greater then or equal to 1 "))
      else Ok(v)
  }

  /** update_parent on the registry: the template and the interval are written only once every
      check has passed. */
  function UpdateParentOp(st: State, text: string, parsed: Option<real>, host: Host): Change {
    var checked := TokensCheck(Validator(st.matcher, host), Tokens(text));
    if checked.Raised? then Change(checked, st)
    else
      match IntervalOf(parsed)
      case Err(e) => Change(Raised(e), st)
      case Ok(v) => Change(Done, State(st.settings.(customText := text, interval := v), st.matcher))
  }

  /** The token loop passes exactly when every token passes; when it raises, it raises what the
      first failing token raises. */
  lemma {:induction false} TokensCheckAll(check: string -> Status, ts: seq<string>)
    ensures TokensCheck(check, ts) == Done <==> forall i :: 0 <= i < |ts| ==> check(ts[i]) == Done
    ensures TokensCheck(check, ts).Raised? ==>
      exists i :: 0 <= i < |ts| && check(ts[i]) == TokensCheck(check, ts) &&
        forall j :: 0 <= j < i ==> check(ts[j]) == Done
  {
    if ts != [] && check(ts[0]) == Done {
      var rest := ts[1..];
      TokensCheckAll(check, rest);
      assert forall i :: 1 <= i < |ts| ==> ts[i] == rest[i - 1];
      if TokensCheck(check, ts).Raised? {
        var i :| 0 <= i < |rest| && check(rest[i]) == TokensCheck(check, rest) &&
          forall j :: 0 <= j < i ==> check(rest[j]) == Done;
        assert check(ts[i + 1]) == TokensCheck(check, ts);
        forall j | 0 <= j < i + 1
          ensures check(ts[j]) == Done
        {
          if j > 0 {
            assert ts[j] == rest[j - 1];
          }
        }
      }
    }
  }

  /** update_parent commits exactly when every token exists and passes its checks and the
      interval is a number of at least 1; a failure changes nothing, and after a commit every
      token of the template is a supported sensor. */
  lemma UpdateParentSpec(st: State, text: string, parsed: Option<real>, host: Host)
    ensures var c := UpdateParentOp(st, text, parsed, host);
      (c.status == Done <==>
        (forall i :: 0 <= i < |Tokens(text)| ==> TokenCheck(st.matcher, host, Tokens(text)[i]) == Done) &&
        parsed.Some? && parsed.value >= 1.0) &&
      (c.status.Raised? ==> c.state == st) &&
      (c.status == Done ==> c.state == State(st.settings.(customText := text, interval := parsed.value), st.matcher)) &&
      (c.status == Done ==> forall i :: 0 <= i < |Tokens(text)| ==> Match(c.state.matcher, Tokens(text)[i]) == Ok(true))
  {
    var ts := Tokens(text);
    var check := Validator(st.matcher, host);
    TokensCheckAll(check, ts);
    assert forall i :: 0 <= i < |ts| ==> check(ts[i]) == TokenCheck(st.matcher, host, ts[i]);
    var c := UpdateParentOp(st, text, parsed, host);
    if TokensCheck(check, ts) == Done && IntervalOf(parsed).Ok? {
      assert c.status == Done;
      forall i | 0 <= i < |ts|
        ensures Match(st.matcher, ts[i]) == Ok(true)
      {
        assert TokenCheck(st.matcher, host, ts[i]) == Done;
      }
    } else {
      if TokensCheck(check, ts) != Done {
        var i :| 0 <= i < |ts| && check(ts[i]) != Done;
        assert TokenCheck(st.matcher, host, Tokens(text)[i]) != Done;
      } else {
        assert IntervalOf(parsed).Err?;
        assert !(parsed.Some? && parsed.value >= 1.0);
      }
      assert c.status.Raised?;
    }
  }

  /** The token loop raises what the first failing token raises. */
  lemma {:induction false} FirstFailure(check: string -> Status, ts: seq<string>, i: nat)
    requires i < |ts| && check(ts[i]).Raised?
    requires forall j :: 0 <= j < i ==> check(ts[j]) == Done
    ensures TokensCheck(check, ts) == check(ts[i])
  {
    if i > 0 {
      assert forall j :: 0 <= j < i - 1 ==> ts[1..][j] == ts[j + 1];
      FirstFailure(check, ts[1..], i - 1);
    }
  }

  /** A token that is not a supported sensor is refused with its own message when it is the first
      token to fail. */
  lemma UnsupportedTokenRefused(keys: set<string>, host: Host, ts: seq<string>, i: nat)
    requires i < |ts| && !MatchesAny(keys, ts[i])
    requires forall j :: 0 <= j < i ==> TokenCheck(Some(keys), host, ts[j]) == Done
    ensures TokensCheck(Validator(Some(keys), host), ts) == Raised(SensorError("{" + ts[i] + "} sensor not supported."))
  {
    var check := Validator(Some(keys), host);
    assert check(ts[i]) == TokenCheck(Some(keys), host, ts[i]);
    assert forall j :: 0 <= j < i ==> check(ts[j]) == TokenCheck(Some(keys), host, ts[j]);
    FirstFailure(check, ts, i);
  }

  // ---------------------------------------------------------------------------------------------
  // The sensor list

  /** A row of the list store: the sensor key and its description. */
  type Row = (string, string)

  /** What the user is told: nothing, an error dialog with the message of an ISMError, or an
      exception that escapes the handler. */
  datatype Feedback = Silent | Shown(msg: string) | Uncaught(error: Error)

  /** The handlers catch ISMError only, which the registry raises as SensorError. */
  function Report(e: Error): (f: Feedback)
    ensures f.Shown? <==> e.SensorError?
  {
    if e.SensorError? then Shown(e.msg) else Uncaught(e)
  }

  /** What a list handler leaves behind: what the user is told, the registry, the rows of the list
      store, and the text of the template entry. */
  datatype Screen = Screen(feedback: Feedback, state: State, rows: seq<Row>, entry: string)

  function RowNames(rows: seq<Row>): (r: seq<string>)
    ensures |r| == |rows| && forall i :: 0 <= i < |rows| ==> r[i] == rows[i].0
  {
    seq(|rows|, i requires 0 <= i < |rows| => rows[i].0)
  }

  /** The list shows each key of the registry exactly once, and nothing else. */
  predicate Mirrors(rows: seq<Row>, sensors: map<string, Entry>) {
    Distinct(RowNames(rows)) && (forall k :: k in RowNames(rows) ==> k in sensors) &&
    (forall k :: k in sensors ==> k in RowNames(rows))
  }

  function Without(rows: seq<Row>, i: nat): (r: seq<Row>)
    requires i < |rows|
    ensures |r| == |rows| - 1
  {
    rows[..i] + rows[i + 1..]
  }

  /** Removing a row of a list of distinct names removes exactly that name. */
  lemma WithoutName(rows: seq<Row>, i: nat)
    requires i < |rows| && Distinct(RowNames(rows))
    ensures Distinct(RowNames(Without(rows, i)))
    ensures forall k :: k in RowNames(Without(rows, i)) <==> k in RowNames(rows) && k != rows[i].0
  {
    var names := RowNames(rows);
    assert RowNames(Without(rows, i)) == names[..i] + names[i + 1..];
    DropDistinct(names, i);
  }

  /** Dropping element i of a sequence of distinct names keeps the others distinct and loses only
      that name. */
  lemma DropDistinct(s: seq<string>, i: nat)
    requires i < |s| && Distinct(s)
    ensures Distinct(s[..i] + s[i + 1..])
    ensures forall k :: k in s[..i] + s[i + 1..] <==> k in s && k != s[i]
  {
    var r := s[..i] + s[i + 1..];
    assert forall j :: 0 <= j < |r| ==> r[j] == s[if j < i then j else j + 1];
    assert s == s[..i] + [s[i]] + s[i + 1..];
  }

  /** Appending a row with a new name keeps the names distinct and adds that name. */
  lemma AppendName(rows: seq<Row>, row: Row)
    requires Distinct(RowNames(rows)) && row.0 !in RowNames(rows)
    ensures Distinct(RowNames(rows + [row]))
    ensures forall k :: k in RowNames(rows + [row]) <==> k in RowNames(rows) || k == row.0
  {
    var r := rows + [row];
    assert forall j :: 0 <= j < |rows| ==> r[j] == rows[j];
    assert RowNames(r) == RowNames(rows) + [row.0];
  }

  /** _on_del_sensor with the selected row `selected` (None when nothing is selected): the
      registry deletes the key; on success the row is removed and every `{name}` found in one
      left-to-right pass over the template entry is removed. */
  function DeleteSensorOp(st: State, rows: seq<Row>, entry: string, selected: Option<nat>): Screen
    requires selected.Some? ==> selected.value < |rows|
  {
    if selected.None? then Screen(Silent, st, rows, entry)
    else
      var i := selected.value;
      var name := rows[i].0;
      var c := DeleteOp(st, name);
      if c.status.Raised? then Screen(Report(c.status.error), c.state, rows, entry)
      else Screen(Silent, c.state, Without(rows, i), Replace(entry, "{" + name + "}", ""))
  }

  /** A delete that fails changes neither the registry, the list nor the entry, and shows the
      registry's message; one that succeeds removes the key from both the registry and the list,
      and the list goes on showing the registry. */
  lemma DeleteSensorSpec(st: State, rows: seq<Row>, entry: string, i: nat)
    requires i < |rows| && Mirrors(rows, st.settings.sensors)
    ensures var after := DeleteSensorOp(st, rows, entry, Some(i));
      var name := rows[i].0;
      (after.feedback == Silent <==> name in st.settings.sensors && st.settings.sensors[name].cmd != Builtin) &&
      (after.feedback != Silent ==> after.feedback.Shown? && after.state == st && after.rows == rows && after.entry == entry) &&
      (after.feedback == Silent ==>
        after.state.settings.sensors == st.settings.sensors - {name} &&
        name !in RowNames(after.rows) &&
        after.entry == Replace(entry, "{" + name + "}", "") &&
        Mirrors(after.rows, after.state.settings.sensors))
  {
    var name := rows[i].0;
    assert RowNames(rows)[i] == name;
    WithoutName(rows, i);
  }

  /** The entry keeps a template without the deleted placeholder as it was. */
  lemma DeleteKeepsOtherText(st: State, rows: seq<Row>, entry: string, i: nat)
    requires i < |rows| && !Contains(entry, "{" + rows[i].0 + "}")
    ensures DeleteSensorOp(st, rows, entry, Some(i)).entry == entry
  {
    ReplaceAbsent(entry, "{" + rows[i].0 + "}", "");
  }

  /** The entry is cleaned in a single pass: a placeholder that the removal of an inner one
      brings together survives. */
  lemma DeleteLeavesNestedPlaceholder()
    ensures Replace("{a{a}}", "{a}", "") == "{a}"
  {
    var p := "{a}";
    var s := "{a{a}}";
    assert s[..3] != p by { assert s[2] == '{' && p[2] == '}'; }
    assert s[1..] == "a{a}}";
    assert !(p <= "a{a}}") by { assert "a{a}}"[0] == 'a'; }
    assert "a{a}}"[1..] == "{a}}";
    assert "{a}}"[..3] == p;
    assert "{a}}"[3..] == "}";
    assert !(p <= "}");
    assert Replace("}", p, "") == "}" by { assert "}"[1..] == []; }
  }

  /** The registry's edit(name, newname, desc, cmd) as the handler calls it. */
  type EditFn = (State, string, string, string, Command) -> Change

  /** _on_edit_sensor over the registry's edit `edit`: `blank` is the New button (otherwise Edit,
      on the selected row), and `response` the three entries of the dialog when it is accepted
      (None when it is cancelled). A default sensor is refused before the dialog opens; a new
      sensor is added, an edited one replaces its row, and the new row goes to the end of the
      list. */
  function EditSensorWith(st: State, rows: seq<Row>, entry: string, blank: bool, selected: Option<nat>,
                          response: Option<(string, string, string)>, edit: EditFn): Screen
    requires selected.Some? ==> selected.value < |rows|
  {
    var sensors := st.settings.sensors;
    if !blank && selected.None? then Screen(Silent, st, rows, entry)
    else if !blank && rows[selected.value].0 !in sensors then Screen(Uncaught(KeyError(rows[selected.value].0)), st, rows, entry)
    else if !blank && sensors[rows[selected.value].0].cmd == Builtin then
      Screen(Shown("Can not edit the default sensors."), st, rows, entry)
    else if response.None? then Screen(Silent, st, rows, entry)
    else
      var (newname, desc, cmd) := response.value;
      var c := if blank then AddOp(st, newname, desc, Shell(cmd))
               else edit(st, rows[selected.value].0, newname, desc, Shell(cmd));
      if c.status.Raised? then Screen(Report(c.status.error), c.state, rows, entry)
      else
        var kept := if blank then rows else Without(rows, selected.value);
        Screen(Silent, c.state, kept + [(newname, desc)], entry)
  }

  /** _on_edit_sensor over the corrected edit. */
  function EditSensorOp(st: State, rows: seq<Row>, entry: string, blank: bool, selected: Option<nat>,
                        response: Option<(string, string, string)>): Screen
    requires selected.Some? ==> selected.value < |rows|
  {
    EditSensorWith(st, rows, entry, blank, selected, response, EditOp)
  }

  /** As written, accepting the Edit dialog of a custom sensor without changing its name deletes
      the sensor, with no message, while the list shows a row for it: the list no longer mirrors
      the registry. */
  lemma EditSensorAsWrittenKeepingName(st: State, rows: seq<Row>, entry: string, i: nat, desc: string, cmd: string)
    requires i < |rows| && rows[i].0 in st.settings.sensors && st.settings.sensors[rows[i].0].cmd != Builtin
    ensures var after := EditSensorWith(st, rows, entry, false, Some(i), Some((rows[i].0, desc, cmd)), EditAsWritten);
      after.feedback == Silent &&
      rows[i].0 !in after.state.settings.sensors &&
      rows[i].0 in RowNames(after.rows) &&
      !Mirrors(after.rows, after.state.settings.sensors)
  {
    var name := rows[i].0;
    var after := EditSensorWith(st, rows, entry, false, Some(i), Some((name, desc, cmd)), EditAsWritten);
    assert after.rows == Without(rows, i) + [(name, desc)];
    assert RowNames(after.rows)[|after.rows| - 1] == name;
  }

  /** Editing the row of a default sensor is refused before anything changes. */
  lemma EditRefusesDefaults(st: State, rows: seq<Row>, entry: string, i: nat, response: Option<(string, string, string)>)
    requires i < |rows| && rows[i].0 in st.settings.sensors && st.settings.sensors[rows[i].0].cmd == Builtin
    ensures EditSensorOp(st, rows, entry, false, Some(i), response) ==
      Screen(Shown("Can not edit the default sensors."), st, rows, entry)
  {
  }

  /** An accepted New or Edit dialog either changes nothing and says why, or leaves the registry
      as add() or edit() leaves it, with the list still showing the registry, the new row last,
      and the template entry untouched. */
  lemma EditSensorSpec(st: State, rows: seq<Row>, entry: string, blank: bool, selected: Option<nat>,
                       response: Option<(string, string, string)>)
    requires selected.Some? ==> selected.value < |rows|
    requires Mirrors(rows, st.settings.sensors) && Synced(st)
    requires blank ==> response.Some? ==> IsPlainName(response.value.0)
    ensures var after := EditSensorOp(st, rows, entry, blank, selected, response);
      after.entry == entry &&
      (after.feedback != Silent ==> after.state == st && after.rows == rows) &&
      (after.feedback == Silent && after.state != st ==>
        response.Some? &&
        after.state == (if blank then AddOp(st, response.value.0, response.value.1, Shell(response.value.2)).state
                        else EditOp(st, rows[selected.value].0, response.value.0, response.value.1, Shell(response.value.2)).state) &&
        after.rows[|after.rows| - 1] == (response.value.0, response.value.1)) &&
      Mirrors(after.rows, after.state.settings.sensors)
  {
    var sensors := st.settings.sensors;
    if response.Some? {
      var (newname, desc, cmd) := response.value;
      if blank && AddOp(st, newname, desc, Shell(cmd)).status == Done {
        AddKeepsMirror(st, rows, newname, desc, cmd);
      } else if !blank && selected.Some? && rows[selected.value].0 in sensors && sensors[rows[selected.value].0].cmd != Builtin &&
                EditOp(st, rows[selected.value].0, newname, desc, Shell(cmd)).status == Done {
        EditKeepsMirror(st, rows, selected.value, newname, desc, cmd);
      }
    }
  }

  /** A sensor added from the New dialog gets a row of its own. */
  lemma AddKeepsMirror(st: State, rows: seq<Row>, newname: string, desc: string, cmd: string)
    requires Mirrors(rows, st.settings.sensors) && Synced(st) && IsPlainName(newname)
    requires AddOp(st, newname, desc, Shell(cmd)).status == Done
    ensures Mirrors(rows + [(newname, desc)], AddOp(st, newname, desc, Shell(cmd)).state.settings.sensors)
  {
    if newname in RowNames(rows) {
      PlainKeyMatchesItself(st.settings.sensors.Keys, newname);
    }
    AppendName(rows, (newname, desc));
  }

  /** An edited sensor's row is replaced by one under its new name. */
  lemma EditKeepsMirror(st: State, rows: seq<Row>, i: nat, newname: string, desc: string, cmd: string)
    requires i < |rows| && Mirrors(rows, st.settings.sensors)
    requires EditOp(st, rows[i].0, newname, desc, Shell(cmd)).status == Done
    ensures Mirrors(Without(rows, i) + [(newname, desc)], EditOp(st, rows[i].0, newname, desc, Shell(cmd)).state.settings.sensors)
  {
    assert RowNames(rows)[i] == rows[i].0;
    WithoutName(rows, i);
    AppendName(Without(rows, i), (newname, desc));
  }

  // ---------------------------------------------------------------------------------------------
  // The dialogs

  /** The preferences dialog of an indicator: the text of its template entry, and the registry
      it shares with the indicator (SensorManager is a singleton). */
  class Preferences {
    var customEntry: string
    const mgr: SensorManager
    const indicator: IndicatorSysmonitor

    predicate Valid()
      reads this, indicator, mgr
    {
      indicator.mgr == mgr && mgr.Valid()
    }

    /** set_data: the entry shows the registry's template. */
    constructor(indicator: IndicatorSysmonitor)
      requires indicator.Valid()
      ensures Valid() && this.indicator == indicator && customEntry == indicator.mgr.settings.customText
    {
      this.indicator := indicator;
      mgr := indicator.mgr;
      customEntry := indicator.mgr.settings.customText;
    }

    /** The token loop of update_parent; it changes nothing. */
    method CheckTokens(host: Host, tokens: seq<string>) returns (s: Status)
      ensures s == TokensCheck(Validator(mgr.matcher, host), tokens)
    {
      for i := 0 to |tokens|
        invariant TokensCheck(Validator(mgr.matcher, host), tokens) == TokensCheck(Validator(mgr.matcher, host), tokens[i..])
      {
        var t := tokens[i];
        assert tokens[i..][0] == t && tokens[i..][1..] == tokens[i + 1..];
        var found := mgr.Exists(t);
        if found.Err? {
          return Raised(found.error);
        }
        if !found.value {
          return Raised(SensorError("{" + t + "} sensor not supported."));
        }
        var checked := mgr.CheckAll(host, t);
        if checked.Raised? {
          return checked;
        }
      }
      assert tokens[|tokens|..] == [];
      return Done;
    }

    /** update_parent, with `parsed` the float() of the interval entry (None when that raises
        ValueError): the checks, then the commit, the fetcher's restart and the guide fetch of
        update_indicator_guide, which may still raise once the settings are committed. */
    method UpdateParent(host: Host, parsed: Option<real>, now: real) returns (s: Status, order: seq<string>)
      requires Valid()
      modifies mgr, mgr.fetcher, mgr.net, mgr.netcomp, mgr.upordown, mgr.publicip
      ensures var op := UpdateParentOp(old(mgr.Snapshot()), customEntry, parsed, host);
        mgr.Snapshot() == op.state &&
        (op.status.Raised? ==> s == op.status && mgr.Gauges() == old(mgr.Gauges())) &&
        (op.status == Done ==>
          var c := Cycle(Tokens(mgr.settings.customText), mgr.settings.sensors, host, mgr.settings.interval, now, old(mgr.Gauges()));
          mgr.Gauges() == c.bank && s == StatusOf(GuideOf(c, mgr.settings.customText, order)))
      ensures UpdateParentOp(old(mgr.Snapshot()), customEntry, parsed, host).status == Done ==>
        mgr.fetcher != null && fresh(mgr.fetcher) && mgr.fetcher.alive && mgr.fetcher.armed &&
        (old(mgr.fetcher) != null ==> !old(mgr.fetcher).alive)
      ensures UpdateParentOp(old(mgr.Snapshot()), customEntry, parsed, host).status.Raised? ==>
        mgr.fetcher == old(mgr.fetcher) && (mgr.fetcher != null ==> mgr.fetcher.alive == old(mgr.fetcher.alive))
    {
      order := [];
      var text := customEntry;
      ghost var op := UpdateParentOp(mgr.Snapshot(), text, parsed, host);
      var checked := CheckTokens(host, Tokens(text));
      if checked.Raised? {
        assert op.status == checked && op.state == mgr.Snapshot();
        return checked, order;
      }
      var interval := IntervalOf(parsed);
      if interval.Err? {
        assert op.status == Raised(interval.error) && op.state == mgr.Snapshot();
        return Raised(interval.error), order;
      }
      mgr.SetCustomText(text);
      mgr.SetInterval(interval.value);
      assert op.status == Done && op.state == mgr.Snapshot();
      indicator.UpdateSettings();
      s, order := indicator.UpdateIndicatorGuide(host, now);
    }
  }

  /** The sensor list of a preferences dialog. */
  class SensorsListModel {
    var rows: seq<Row>
    const dialog: Preferences
    const mgr: SensorManager

    predicate Valid()
      reads this, dialog
    {
      dialog.mgr == mgr
    }

    /** fill_liststore: one row per key of the registry, in the order the dictionary yields. */
    constructor(dialog: Preferences)
      ensures Valid() && this.dialog == dialog
      ensures Mirrors(rows, mgr.settings.sensors)
      ensures forall i :: 0 <= i < |rows| ==> rows[i].1 == mgr.settings.sensors[rows[i].0].desc
    {
      this.dialog := dialog;
      mgr := dialog.mgr;
      var sensors := dialog.mgr.settings.sensors;
      var listed: seq<Row> := [];
      var rest := sensors.Keys;
      while rest != {}
        invariant rest <= sensors.Keys && Distinct(RowNames(listed))
        invariant forall i :: 0 <= i < |listed| ==> listed[i].0 in sensors && listed[i].0 !in rest && listed[i].1 == sensors[listed[i].0].desc
        invariant forall k :: k in sensors ==> k in rest || k in RowNames(listed)
        decreases rest
      {
        var k :| k in rest;
        AppendName(listed, (k, sensors[k].desc));
        listed := listed + [(k, sensors[k].desc)];
        rest := rest - {k};
      }
      rows := listed;
    }

    /** _on_del_sensor. */
    method DeleteSensor(selected: Option<nat>) returns (f: Feedback)
      requires Valid() && (selected.Some? ==> selected.value < |rows|)
      modifies this, dialog, mgr
      ensures Screen(f, mgr.Snapshot(), rows, dialog.customEntry) ==
        DeleteSensorOp(old(mgr.Snapshot()), old(rows), old(dialog.customEntry), selected)
      ensures mgr.fetcher == old(mgr.fetcher)
    {
      if selected.None? {
        return Silent;
      }
      var i := selected.value;
      var name := rows[i].0;
      var s := mgr.Delete(name);
      if s.Raised? {
        return Report(s.error);
      }
      rows := Without(rows, i);
      var ctext := dialog.customEntry;
      dialog.customEntry := Replace(ctext, "{" + name + "}", "");
      return Silent;
    }

    /** _on_edit_sensor. */
    method EditSensor(blank: bool, selected: Option<nat>, response: Option<(string, string, string)>) returns (f: Feedback)
      requires Valid() && (selected.Some? ==> selected.value < |rows|)
      modifies this, mgr
      ensures Screen(f, mgr.Snapshot(), rows, dialog.customEntry) ==
        EditSensorOp(old(mgr.Snapshot()), old(rows), old(dialog.customEntry), blank, selected, response)
      ensures mgr.fetcher == old(mgr.fetcher)
    {
      var name := "";
      if !blank {
        if selected.None? {
          return Silent;
        }
        name := rows[selected.value].0;
        if name !in mgr.settings.sensors {
          return Uncaught(KeyError(name));
        }
        var cmd := mgr.settings.sensors[name].cmd;
        if cmd == Builtin {
          return Shown("Can not edit the default sensors.");
        }
      }
      if response.None? {
        return Silent;
      }
      var (newname, desc, cmd) := response.value;
      var s;
      if blank {
        s := mgr.Add(newname, desc, Shell(cmd));
      } else {
        s := mgr.Edit(name, newname, desc, Shell(cmd));
      }
      if s.Raised? {
        return Report(s.error);
      }
      if !blank {
        rows := Without(rows, selected.value);
      }
      rows := rows + [(newname, desc)];
      return Silent;
    }
  }
}
