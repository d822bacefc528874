/** The built-in sensors of sensors.py: their names, the three-way `check` each applies to a token,
    the value each reads for a token, and the two kinds of state some of them keep between fetch
    cycles (the network counters' baseline, the cached output of a slow command).

    What a sensor reads from the machine (psutil, /proc, /sys, statvfs, nvidia-smi, the shell) is a
    `Host` snapshot passed in, and so is the digit rendering of floating-point numbers. */
module Sensors {
  import opened Outcome
  import opened Text
  import opened Units
  import opened Patterns

  datatype Kind =
    | CPU | NvGPU | Mem | Net | NetComp | TotalNet | Bat | FS | Swap | UporDown | PublicIP | CPUTemp | NvGPUTemp

  /** sensor_instances, in the order get() tries them. */
  const Instances: seq<Kind> :=
    [CPU, NvGPU, Mem, Net, NetComp, TotalNet, Bat, FS, Swap, UporDown, PublicIP, CPUTemp, NvGPUTemp]

  /** The key each built-in registers itself under. */
  function Name(k: Kind): string {
    match k
    case CPU => "cpu\\d*"
    case NvGPU => "nvgpu"
    case Mem => "mem"
    case Net => "net"
    case NetComp => "netcomp"
    case TotalNet => "totalnet"
    case Bat => "bat\\d*"
    case FS => "fs//.+"
    case Swap => "swap"
    case UporDown => "upordown"
    case PublicIP => "publicip"
    case CPUTemp => "cputemp"
    case NvGPUTemp => "nvgputemp"
  }

  function Desc(k: Kind): string {
    match k
    case CPU => "Average CPU usage"
    case NvGPU => "Nvidia GPU utilization"
    case Mem => "Physical memory in use."
    case Net => "Network activity."
    case NetComp => "Network activity in Compact form."
    case TotalNet => "Total Network activity."
    case Bat => "Battery capacity."
    case FS => "Available space in file system."
    case Swap => "Average swap usage"
    case UporDown => "Display if your internet connection is up or down"
    case PublicIP => "Display your public IP address"
    case CPUTemp => "CPU temperature"
    case NvGPUTemp => "Nvidia GPU Temperature"
  }

  /** The command column of a registry entry: `True` for a built-in, a shell command otherwise. */
  datatype Command = Builtin | Shell(text: string)

  /** What communicate()[0] of a shell command holds: bytes that decode as UTF-8 (given as the
      text they decode to), or bytes that do not; those are never empty once stripped, since
      bytes.strip() removes ASCII whitespace only. */
  datatype Stdout = Utf8(text: string) | NotUtf8

  /** A shell command's standard output; None when Popen raises. */
  type Runner = string -> Option<Stdout>

  /** What the machine reports during one fetch cycle. */
  datatype Host = Host(
    cpuCount: nat,                  // psutil cpu_count()
    cpuLoad: seq<real>,             // cpu_percent(percpu=True), read once per cycle
    paths: set<string>,             // the paths os.path.exists accepts
    fsAvail: string -> nat,         // f_bavail * f_frsize of a mount point
    meminfo: seq<string>,           // the lines of /proc/meminfo
    release: string,                // platform.release()
    swaps: Option<seq<string>>,     // the lines of /proc/swaps; None when it cannot be opened
    nics: seq<(nat, nat)>,          // (bytes_recv, bytes_sent) of each network interface
    capacity: nat -> Option<int>,   // int() of the first line of BATn/capacity; None when that fails
    nvgpu: Result<int>,             // the utilisation nvidia-smi reports
    nvgpuTemp: Result<int>,         // the temperature nvidia-smi reports
    cpuTemp: Result<real>,          // the outcome of the thermal-zone probing
    run: Runner,                    // a shell command's standard output; None when Popen raises
    fixed0: real -> string,         // '{:02.0f}'
    fixed2: real -> string,         // '%3.2f' / '%.2f'
    round2: real -> string)         // str(round(x, 2)) of a float

  // ---------------------------------------------------------------------------------------------
  // check

  /** The three outcomes of a sensor's check: True, None, or an ISMError with its message. */
  datatype Verdict = Accepts | NotMine | Rejects(msg: string)

  /** The test each sensor applies before anything else: whether the token is its business. */
  predicate Claims(k: Kind, t: string) {
    match k
    case CPU => Matches(PrefixDigits("cpu"), t)
    case Bat => Matches(PrefixDigits("bat"), t)
    case FS => "fs//" <= t
    case _ => t == Name(k)
  }

  /** The core a `cpu` token names: 0 for `cpu`, n for `cpu<n>`. */
  function CpuIndex(t: string): nat
    requires Matches(PrefixDigits("cpu"), t)
  {
    if |t| == 3 then 0 else DigitsValue(t[3..])
  }

  /** The battery a `bat` token names: 0 for `bat`, n for `bat<n>`. */
  function BatIndex(t: string): nat
    requires Matches(PrefixDigits("bat"), t)
  {
    if |t| > 3 then DigitsValue(t[3..]) else 0
  }

  function BatteryPath(id: nat): string {
    "/sys/class/power_supply/BAT" + NatToString(id)
  }

  /** The mount point of an `fs//` token: the text after `fs//` up to the next `//`. */
  function FsPath(t: string): string
    requires "fs//" <= t
  {
    Before(t[4..], "//")
  }

  /** sensor.check(token) for each built-in. */
  function Check(k: Kind, host: Host, t: string): (v: Verdict)
    ensures v.NotMine? <==> !Claims(k, t)
    ensures k == CPU && Claims(k, t) ==> (v.Rejects? <==> CpuIndex(t) >= host.cpuCount)
    ensures k == Bat && Claims(k, t) ==> (v.Rejects? <==> BatteryPath(BatIndex(t)) !in host.paths)
    ensures k == FS && Claims(k, t) ==> (v.Rejects? <==> FsPath(t) !in host.paths)
    ensures k != CPU && k != Bat && k != FS ==> !v.Rejects?
  {
    match k
    case CPU =>
      if !Claims(CPU, t) then NotMine
      else if CpuIndex(t) >= host.cpuCount then Rejects("Invalid number of CPUs.")
      else Accepts
    case Bat =>
      if !Claims(Bat, t) then NotMine
      else if BatteryPath(BatIndex(t)) !in host.paths then Rejects("Invalid number returned for the Battery sensor.")
      else Accepts
    case FS =>
      if !Claims(FS, t) then NotMine
      else if FsPath(t) !in host.paths then Rejects("Path: " + FsPath(t) + " doesn't exists.")
      else Accepts
    case _ => if Claims(k, t) then Accepts else NotMine
  }

  /** The first `//` of an `fs//` token is the one after `fs`. */
  lemma SlashesAfterFs(t: string)
    requires "fs//" <= t
    ensures Find(t, "//") == Some(2)
  {
    assert "//" <= t[2..] by { assert t[2..][..2] == "//"; }
    assert !("//" <= t[0..]) by { assert t[0..][0] == 'f'; }
    assert !("//" <= t[1..]) by { assert t[1..][0] == 's'; }
    FindAt(t, "//", 2);
  }

  /** `sensor.split("//")[1]` is the mount point FsPath takes. */
  lemma FsPathSplit(t: string)
    requires "fs//" <= t
    ensures SecondField(t, "//") == Some(FsPath(t))
  {
    SlashesAfterFs(t);
    assert t[2 + |"//"|..] == t[4..];
  }

  lemma CpuClaimsNoName(k: Kind)
    ensures k != CPU && k != Bat && k != FS ==> !Matches(PrefixDigits("cpu"), Name(k))
  {
    var n := Name(k);
    if k == CPUTemp {
      assert !IsDigit(n[3..][0]);
    } else {
      assert n[0] != 'c' || k == CPU;
    }
  }

  lemma BatClaimsNoName(k: Kind)
    ensures k != CPU && k != Bat && k != FS ==> !Matches(PrefixDigits("bat"), Name(k))
  {
    assert Name(k)[0] != 'b' || k == Bat;
  }

  /** No token is the business of two built-ins. */
  lemma ClaimsDisjoint(k1: Kind, k2: Kind, t: string)
    ensures Claims(k1, t) && Claims(k2, t) ==> k1 == k2
  {
    CpuClaimsNoName(k1);
    CpuClaimsNoName(k2);
    BatClaimsNoName(k1);
    BatClaimsNoName(k2);
    assert Claims(CPU, t) ==> t[0] == 'c';
    assert Claims(Bat, t) ==> t[0] == 'b';
    assert Claims(FS, t) ==> t[0] == 'f' && t[2] == '/';
  }

  /** Every token a built-in's registry key matches is claimed by that built-in's check. */
  lemma KeyMatchClaimed(k: Kind, t: string)
    requires Matches(PatternOf(Name(k)), t)
    ensures Claims(k, t)
  {
    if k == CPU {
      assert PatternOf(Name(k)) == PrefixDigits("cpu") by {
        assert Name(k)[|Name(k)| - 3..] == "\\d*";
      }
    } else if k == Bat {
      assert PatternOf(Name(k)) == PrefixDigits("bat") by {
        assert Name(k)[|Name(k)| - 3..] == "\\d*";
      }
    } else if k == FS {
      assert PatternOf(Name(k)) == PrefixNonEmpty("fs//") by {
        assert Name(k)[|Name(k)| - 3..] != "\\d*";
        assert Name(k)[|Name(k)| - 2..] == ".+";
      }
    } else {
      LiteralKey(k);
    }
  }

  /** The keys of the other built-ins are plain names. */
  lemma LiteralKey(k: Kind)
    requires k != CPU && k != Bat && k != FS
    ensures PatternOf(Name(k)) == Literal(Name(k))
  {
    var n := Name(k);
    assert n != [] && n[|n| - 1] != '*' && n[|n| - 1] != '+';
    PlainByLastChar(n);
  }

  // ---------------------------------------------------------------------------------------------
  // get and check over all instances

  /** get(): the first instance in `ks` whose check does not return None; the check that raises
      first propagates. */
  function FirstClaim(host: Host, t: string, ks: seq<Kind>): Result<Option<Kind>> {
    if ks == [] then Ok(None)
    else
      match Check(ks[0], host, t)
      case Accepts => Ok(Some(ks[0]))
      case Rejects(m) => Err(SensorError(m))
      case NotMine => FirstClaim(host, t, ks[1..])
  }

  /** The manager's check(): every instance's check in turn, for its exception only. */
  function CheckEvery(host: Host, t: string, ks: seq<Kind>): Status {
    if ks == [] then Done
    else
      match Check(ks[0], host, t)
      case Rejects(m) => Raised(SensorError(m))
      case _ => CheckEvery(host, t, ks[1..])
  }

  /** What the single claimant's check decides, as get() reports it. */
  function Decided(k: Kind, host: Host, t: string): Result<Option<Kind>> {
    match Check(k, host, t)
    case Accepts => Ok(Some(k))
    case Rejects(m) => Err(SensorError(m))
    case NotMine => Ok(None)
  }

  lemma {:induction false} FirstClaimOf(k: Kind, host: Host, t: string, ks: seq<Kind>)
    requires k in ks && Claims(k, t)
    ensures FirstClaim(host, t, ks) == Decided(k, host, t)
    ensures CheckEvery(host, t, ks) == if Decided(k, host, t).Err? then Raised(Decided(k, host, t).error) else Done
  {
    if ks[0] == k {
      if Check(k, host, t).Accepts? || Check(k, host, t).NotMine? {
        NoneClaimsRest(k, host, t, ks[1..]);
      }
    } else {
      ClaimsDisjoint(k, ks[0], t);
      FirstClaimOf(k, host, t, ks[1..]);
    }
  }

  lemma {:induction false} NoneClaimsRest(k: Kind, host: Host, t: string, ks: seq<Kind>)
    requires Claims(k, t)
    ensures CheckEvery(host, t, ks) == if Decided(k, host, t).Err? && k in ks then Raised(Decided(k, host, t).error) else Done
    decreases |ks|
  {
    if ks != [] {
      ClaimsDisjoint(k, ks[0], t);
      NoneClaimsRest(k, host, t, ks[1..]);
      assert k in ks <==> k == ks[0] || k in ks[1..];
    }
  }

  lemma {:induction false} NoClaimant(host: Host, t: string, ks: seq<Kind>)
    requires forall i :: 0 <= i < |ks| ==> !Claims(ks[i], t)
    ensures FirstClaim(host, t, ks) == Ok(None) && CheckEvery(host, t, ks) == Done
  {
    if ks != [] {
      assert !Claims(ks[0], t);
      NoClaimant(host, t, ks[1..]);
    }
  }

  lemma EveryKindListed(k: Kind)
    ensures k in Instances
  {
    match k
    case CPU => assert Instances[0] == k;
    case NvGPU => assert Instances[1] == k;
    case Mem => assert Instances[2] == k;
    case Net => assert Instances[3] == k;
    case NetComp => assert Instances[4] == k;
    case TotalNet => assert Instances[5] == k;
    case Bat => assert Instances[6] == k;
    case FS => assert Instances[7] == k;
    case Swap => assert Instances[8] == k;
    case UporDown => assert Instances[9] == k;
    case PublicIP => assert Instances[10] == k;
    case CPUTemp => assert Instances[11] == k;
    case NvGPUTemp => assert Instances[12] == k;
  }

  /** get() returns the one built-in that claims the token when its check accepts, raises that
      check's error when it rejects, and returns None when no built-in claims the token; check()
      raises exactly when get() does. */
  lemma Dispatch(host: Host, t: string)
    ensures forall k :: Claims(k, t) ==> FirstClaim(host, t, Instances) == Decided(k, host, t)
    ensures (forall k :: !Claims(k, t)) ==> FirstClaim(host, t, Instances) == Ok(None)
    ensures CheckEvery(host, t, Instances).Raised? <==> FirstClaim(host, t, Instances).Err?
    ensures CheckEvery(host, t, Instances).Raised? ==>
      CheckEvery(host, t, Instances).error == FirstClaim(host, t, Instances).error
  {
    if k :| Claims(k, t) {
      EveryKindListed(k);
      FirstClaimOf(k, host, t, Instances);
      forall k2 | Claims(k2, t) ensures FirstClaim(host, t, Instances) == Decided(k2, host, t) {
        ClaimsDisjoint(k, k2, t);
      }
    } else {
      NoClaimant(host, t, Instances);
    }
  }

  /** A custom `cpu3` would be claimed by the CPU sensor (and so never run as a command). */
  lemma CpuTokenClaimed(host: Host)
    requires host.cpuCount > 3
    ensures FirstClaim(host, "cpu3", Instances) == Ok(Some(CPU))
    ensures FirstClaim(host.(cpuCount := 2), "cpu3", Instances) == Err(SensorError("Invalid number of CPUs."))
  {
    var t := "cpu3";
    assert t[3..] == "3" && DigitsValue("3") == 3 by {
      assert "3"[..0] == [];
    }
    assert Claims(CPU, t);
    Dispatch(host, t);
    Dispatch(host.(cpuCount := 2), t);
  }

  // ---------------------------------------------------------------------------------------------
  // Custom commands

  /** script_exec: the stripped output of the command, "(no output)" when that is empty. A
      command that cannot be started (or the `True` of a built-in) raises: the fallback text
      "Error" is a str, which has no decode(). Output that is not UTF-8 raises in decode(). */
  function ScriptExec(run: Runner, cmd: Command): (r: Result<string>)
    ensures r.Ok? ==> r.value != []
    ensures r.Err? <==> cmd.Builtin? || run(cmd.text).None? || run(cmd.text).value.NotUtf8?
    ensures r.Err? ==> r.error == if cmd.Shell? && run(cmd.text).Some? then UnicodeDecode else ExecFailed
    ensures r.Ok? && r.value != "(no output)" ==> run(cmd.text).Some? && r.value == StripBytes(run(cmd.text).value.text)
    ensures r.Ok? && r.value == "(no output)" ==> StripBytes(run(cmd.text).value.text) in {[], "(no output)"}
  {
    match cmd
    case Builtin => Err(ExecFailed)
    case Shell(c) =>
      match run(c)
      case None => Err(ExecFailed)
      case Some(NotUtf8) => Err(UnicodeDecode)
      case Some(Utf8(out)) =>
        var o := StripBytes(out);
        if o == [] then Ok("(no output)") else Ok(o)
  }

  // ---------------------------------------------------------------------------------------------
  // Network counters

  /** The received and sent bytes summed over the interfaces. */
  function NetTotals(nics: seq<(nat, nat)>): (nat, nat) {
    if nics == [] then (0, 0)
    else
      var t := NetTotals(nics[..|nics| - 1]);
      (t.0 + nics[|nics| - 1].0, t.1 + nics[|nics| - 1].1)
  }

  /** The bytes per second since the baseline, received first. */
  function NetRates(last: (int, int), totals: (nat, nat), interval: real): Result<(real, real)> {
    if interval == 0.0 then Err(ZeroDivision)
    else Ok(((totals.0 - last.0) as real / interval, (totals.1 - last.1) as real / interval))
  }

  /** The state of NetSensor and NetCompSensor: the counters seen by the previous cycle. */
  class NetSensor {
    var last: (int, int)

    constructor()
      ensures last == (0, 0)
    {
      last := (0, 0);
    }

    /** _fetch_net up to the rendering: the counters are summed, the baseline is replaced by the
        new totals, then the differences are divided by the interval. */
    method Rates(nics: seq<(nat, nat)>, interval: real) returns (r: Result<(real, real)>)
      modifies this
      ensures last == NetTotals(nics)
      ensures r == NetRates(old(last), NetTotals(nics), interval)
    {
      var recv, sent := 0, 0;
      for i := 0 to |nics|
        invariant (recv, sent) == NetTotals(nics[..i])
      {
        assert nics[..i + 1][..i] == nics[..i];
        recv := recv + nics[i].0;
        sent := sent + nics[i].1;
      }
      assert nics[..|nics|] == nics;
      var down, up := recv - last.0, sent - last.1;
      last := (recv, sent);
      if interval == 0.0 {
        return Err(ZeroDivision);
      }
      return Ok((down as real / interval, up as real / interval));
    }
  }

  /** The rates a sensor reports over successive cycles, starting from a baseline. */
  function RateSeries(last: (int, int), readings: seq<(nat, nat)>, interval: real): seq<Result<(real, real)>>
    decreases |readings|
  {
    if readings == [] then [] else [NetRates(last, readings[0], interval)] + RateSeries(readings[0], readings[1..], interval)
  }

  function DownTotal(rs: seq<Result<(real, real)>>): real {
    if rs == [] then 0.0 else (if rs[0].Ok? then rs[0].value.0 else 0.0) + DownTotal(rs[1..])
  }

  function UpTotal(rs: seq<Result<(real, real)>>): real {
    if rs == [] then 0.0 else (if rs[0].Ok? then rs[0].value.1 else 0.0) + UpTotal(rs[1..])
  }

  lemma DivAdd(x: real, y: real, d: real)
    requires d != 0.0
    ensures x / d + y / d == (x + y) / d
  {
  }

  /** Nothing is counted twice or lost: over any run of cycles the reported rates add up to the
      traffic since the baseline, divided by the interval. */
  lemma {:induction false} RatesTelescope(last: (int, int), readings: seq<(nat, nat)>, interval: real)
    requires interval != 0.0 && readings != []
    ensures DownTotal(RateSeries(last, readings, interval)) == (readings[|readings| - 1].0 - last.0) as real / interval
    ensures UpTotal(RateSeries(last, readings, interval)) == (readings[|readings| - 1].1 - last.1) as real / interval
    decreases |readings|
  {
    var rs := RateSeries(last, readings, interval);
    var a := readings[0];
    var tail := RateSeries(a, readings[1..], interval);
    assert rs == [NetRates(last, a, interval)] + tail;
    assert rs[1..] == tail;
    if |readings| == 1 {
      assert readings[1..] == [];
      assert tail == [];
    } else {
      RatesTelescope(a, readings[1..], interval);
      var z := readings[|readings| - 1];
      assert readings[1..][|readings[1..]| - 1] == z;
      DivAdd((a.0 - last.0) as real, (z.0 - a.0) as real, interval);
      DivAdd((a.1 - last.1) as real, (z.1 - a.1) as real, interval);
    }
  }

  /** Counters at 1000/500 and then 3000/1500 bytes, two seconds apart, from a fresh baseline:
      the second cycle reports 1000 bytes/s received and 500 sent. */
  lemma RatesExample()
    ensures RateSeries((0, 0), [(1000, 500), (3000, 1500)], 2.0)
         == [Ok((500.0, 250.0)), Ok((1000.0, 500.0))]
  {
  }

  // ---------------------------------------------------------------------------------------------
  // Cached commands

  datatype Cache = Cache(value: string, lasttime: real)

  const UpOrDownCommand := "if wget -qO /dev/null google.com > /dev/null; then echo \"\U{263A}\"; else echo \"\U{2639}\"; fi"
  const PublicIPCommand := "curl ipv4.icanhazip.com"

  /** Whether the cached value is re-read: nothing cached yet, never read, or older than the
      window (strictly). */
  predicate NeedsRefresh(c: Cache, now: real, window: real) {
    c.value == "" || c.lasttime == 0.0 || now - c.lasttime > window
  }

  /** One get_value of a caching sensor: the cached value, or the command's output, which is then
      cached with the time; a command that raises leaves the cache as it was. */
  function CacheStep(c: Cache, window: real, run: Runner, command: string, now: real): (Result<string>, Cache) {
    if !NeedsRefresh(c, now, window) then (Ok(c.value), c)
    else
      match ScriptExec(run, Shell(command))
      case Ok(v) => (Ok(v), Cache(v, now))
      case Err(e) => (Err(e), c)
  }

  /** UporDownSensor (refreshed after 10 seconds) and PublicIPSensor (after 600). */
  class CachedSensor {
    const command: string
    const window: real
    var current: string
    var lasttime: real

    constructor(command: string, window: real)
      ensures this.command == command && this.window == window
      ensures current == "" && lasttime == 0.0
    {
      this.command := command;
      this.window := window;
      current := "";
      lasttime := 0.0;
    }

    function State(): Cache
      reads this
    {
      Cache(current, lasttime)
    }

    method Value(run: Runner, now: real) returns (r: Result<string>)
      modifies this
      ensures (r, State()) == CacheStep(old(State()), window, run, command, now)
    {
      if current == "" || lasttime == 0.0 || now - lasttime > window {
        var out := ScriptExec(run, Shell(command));
        if out.Err? {
          return out;
        }
        current := out.value;
        lasttime := now;
      }
      return Ok(current);
    }
  }

  /** After a read at time `now`, every call within the window returns that value without running
      the command, and leaves the cache as it is. */
  lemma CacheHolds(c: Cache, window: real, run: Runner, run2: Runner,
                   command: string, now: real, later: real)
    requires now != 0.0 && CacheStep(c, window, run, command, now).0.Ok?
    requires NeedsRefresh(c, now, window) && later - now <= window
    ensures var c2 := CacheStep(c, window, run, command, now).1;
      CacheStep(c2, window, run2, command, later) == (Ok(c2.value), c2)
  {
  }

  /** Once the window has passed, the next call runs the command again. */
  lemma CacheExpires(c: Cache, window: real, run: Runner, command: string, now: real)
    requires now - c.lasttime > window
    ensures CacheStep(c, window, run, command, now).0 == ScriptExec(run, Shell(command))
  {
  }

  // ---------------------------------------------------------------------------------------------
  // Readings

  /** The state all stateful instances keep between cycles. */
  datatype Bank = Bank(net: (int, int), netcomp: (int, int), upordown: Cache, publicip: Cache)

  /** The state of freshly created instances: zero baselines and empty caches. */
  const FreshBank := Bank((0, 0), (0, 0), Cache("", 0.0), Cache("", 0.0))

  /** What one get_value yields, and the instances' state after it. None is Python's None. */
  datatype Reading = Reading(value: Result<Option<string>>, bank: Bank)

  function Percent(host: Host, x: real): string {
    host.fixed0(x) + "%"
  }

  /** bytes_to_human rendered: the scaled value with two decimals, a blank, and the unit. */
  function Human(host: Host, x: real): string {
    var e := Exponent(x, 1000.0, 0);
    host.fixed2(Scaled(x, 1000.0, e)) + " " + (ByteUnits + ["YB"])[e]
  }

  method HumanText(host: Host, x: real) returns (s: string)
    ensures s == Human(host, x)
  {
    var value, unit := BytesToHuman(x);
    s := host.fixed2(value) + " " + unit;
  }

  function CpuReading(host: Host, t: string): Result<Option<string>> {
    if t == "cpu" then
      if host.cpuCount == 0 then Err(ZeroDivision) else Ok(Some(Percent(host, Sum(host.cpuLoad) / host.cpuCount as real)))
    else if Matches(PrefixDigits("cpu"), t) then
      var i := DigitsValue(t[3..]);
      if i < |host.cpuLoad| then Ok(Some(Percent(host, host.cpuLoad[i]))) else Err(IndexError)
    else Ok(None)
  }

  method CpuValue(host: Host, t: string) returns (r: Result<Option<string>>)
    ensures r == CpuReading(host, t)
  {
    if t == "cpu" {
      var avg := CpuAverage(host.cpuLoad, host.cpuCount);
      if avg.Err? {
        return Err(avg.error);
      }
      return Ok(Some(Percent(host, avg.value)));
    } else if Matches(PrefixDigits("cpu"), t) {
      var i := DigitsValue(t[3..]);
      if i < |host.cpuLoad| {
        return Ok(Some(Percent(host, host.cpuLoad[i])));
      }
      return Err(IndexError);
    }
    return Ok(None);
  }

  /** str(round(bytes_, 2)) unit: the byte count as an int before any division, a float after. */
  function FsText(host: Host, bytes: nat): Option<string> {
    var e := Exponent(bytes as real, 1024.0, 0);
    if e >= |ByteUnits| then None
    else Some((if e == 0 then NatToString(bytes) else host.round2(Scaled(bytes as real, 1024.0, e))) + " " + ByteUnits[e])
  }

  function FsReading(host: Host, t: string): Result<Option<string>> {
    if !("fs//" <= t) then Ok(None)
    else if FsPath(t) !in host.paths then Ok(None)
    else Ok(FsText(host, host.fsAvail(FsPath(t))))
  }

  method FsValue(host: Host, t: string) returns (r: Result<Option<string>>)
    ensures r == FsReading(host, t)
  {
    if !("fs//" <= t) || FsPath(t) !in host.paths {
      return Ok(None);
    }
    var bytes := host.fsAvail(FsPath(t));
    var h := FsHuman(bytes);
    match h
    case None => return Ok(None);
    case Some(p) =>
      var e := Exponent(bytes as real, 1024.0, 0);
      var shown := if e == 0 then NatToString(bytes) else host.round2(p.0);
      return Ok(Some(shown + " " + p.1));
  }

  /** '{:02.0f}%' of _fetch_swap: its "N/A" for an unreadable file fails the format. */
  function SwapText(host: Host, r: Result<SwapReading>): Result<Option<string>> {
    match r
    case Err(e) => Err(e)
    case Ok(NotAvailable) => Err(ValueError)
    case Ok(Percent(x)) => Ok(Some(Percent(host, x)))
  }

  function BatReading(host: Host, t: string): Result<Option<string>> {
    if !Matches(PrefixDigits("bat"), t) then Ok(None)
    else
      match host.capacity(BatIndex(t))
      case None => Err(ValueError)
      case Some(c) => Ok(Some(Percent(host, c as real)))
  }

  function MemReading(host: Host): Result<Option<string>> {
    var x :- MemUsed(host.meminfo, host.release);
    Ok(Some(Percent(host, x)))
  }

  function NetText(host: Host, rates: (real, real)): string {
    "\U{2193} " + PadLeft(Human(host, rates.0), 9) + "/s \U{2191} " + PadLeft(Human(host, rates.1), 9) + "/s"
  }

  function NetCompText(host: Host, rates: (real, real)): string {
    "\U{21F5} " + PadLeft(Human(host, rates.0 + rates.1), 9) + "/s"
  }

  function TotalNetText(host: Host, interval: real): Result<string> {
    var t := NetTotals(host.nics);
    if interval == 0.0 then Err(ZeroDivision)
    else Ok(" \U{03A3} " + PadLeft(Human(host, t.0 as real / interval + t.1 as real / interval), 9))
  }

  /** instance.get_value(token) for the built-in k. */
  function Read(k: Kind, t: string, host: Host, interval: real, now: real, b: Bank): Reading {
    match k
    case CPU => Reading(CpuReading(host, t), b)
    case NvGPU =>
      if t != "nvgpu" then Reading(Ok(None), b)
      else Reading(if host.nvgpu.Ok? then Ok(Some(Percent(host, host.nvgpu.value as real))) else Err(host.nvgpu.error), b)
    case Mem => Reading(MemReading(host), b)
    case Net =>
      var r := NetRates(b.net, NetTotals(host.nics), interval);
      Reading(if r.Ok? then Ok(Some(NetText(host, r.value))) else Err(r.error), b.(net := NetTotals(host.nics)))
    case NetComp =>
      var r := NetRates(b.netcomp, NetTotals(host.nics), interval);
      Reading(if r.Ok? then Ok(Some(NetCompText(host, r.value))) else Err(r.error), b.(netcomp := NetTotals(host.nics)))
    case TotalNet =>
      var r := TotalNetText(host, interval);
      Reading(if r.Ok? then Ok(Some(r.value)) else Err(r.error), b)
    case Bat => Reading(BatReading(host, t), b)
    case FS => Reading(FsReading(host, t), b)
    case Swap => Reading(SwapText(host, SwapReport(host.swaps)), b)
    case UporDown =>
      var (r, c) := CacheStep(b.upordown, 10.0, host.run, UpOrDownCommand, now);
      Reading(if r.Ok? then Ok(Some(r.value)) else Err(r.error), b.(upordown := c))
    case PublicIP =>
      var (r, c) := CacheStep(b.publicip, 600.0, host.run, PublicIPCommand, now);
      Reading(if r.Ok? then Ok(Some(r.value)) else Err(r.error), b.(publicip := c))
    case CPUTemp =>
      Reading(if host.cpuTemp.Ok? then Ok(Some(host.fixed0(host.cpuTemp.value) + "\U{00B0}C")) else Err(host.cpuTemp.error), b)
    case NvGPUTemp =>
      Reading(if host.nvgpuTemp.Ok? then Ok(Some(IntToString(host.nvgpuTemp.value) + "\U{00B0}C")) else Err(host.nvgpuTemp.error), b)
  }

  /** Only the sensors that compare with an earlier reading, and the cached commands, change the
      instances' state. */
  lemma ReadKeepsBank(k: Kind, t: string, host: Host, interval: real, now: real, b: Bank)
    requires k != Net && k != NetComp && k != UporDown && k != PublicIP
    ensures Read(k, t, host, interval, now, b).bank == b
  {
  }

  /** Every value a built-in produces is non-empty, and only the file-system sensor produces None
      for a token it accepted (a path that vanished, or more space than ZB). */
  lemma ReadNonEmpty(k: Kind, t: string, host: Host, interval: real, now: real, b: Bank)
    requires Check(k, host, t) == Accepts
    ensures var r := Read(k, t, host, interval, now, b).value;
      r.Ok? && r.value.Some? ==> r.value.value != []
    ensures var r := Read(k, t, host, interval, now, b).value;
      r.Ok? && r.value.None? ==> k == FS
  {
  }
}
