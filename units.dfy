/** The numeric helpers of the built-in sensors (sensors.py): unit selection for byte counts, the
    /proc/swaps summation, the /proc/meminfo reading with its kernel-version gate, and the CPU
    average. Float arithmetic is taken as exact real arithmetic. */
module Units {
  import opened Outcome
  import opened Text

  /** B_UNITS. */
  const ByteUnits: seq<string> := ["B", "KB", "MB", "GB", "TB", "PB", "EB", "ZB"]

  function Abs(x: real): real {
    if x < 0.0 then -x else x
  }

  /** num divided k times by base. */
  function Scaled(num: real, base: real, k: nat): real
    requires base > 0.0
  {
    if k == 0 then num else Scaled(num, base, k - 1) / base
  }

  function Pow(b: real, k: nat): (r: real)
    ensures b > 0.0 ==> r > 0.0
  {
    if k == 0 then 1.0 else b * Pow(b, k - 1)
  }

  /** The least e, from k on and at most |ByteUnits|, at which num scaled e times has magnitude below
      base; |ByteUnits| when there is none. */
  function Exponent(num: real, base: real, k: nat): (e: nat)
    requires base > 0.0 && k <= |ByteUnits|
    ensures k <= e <= |ByteUnits|
    ensures e < |ByteUnits| ==> Abs(Scaled(num, base, e)) < base
    ensures forall j :: k <= j < e ==> Abs(Scaled(num, base, j)) >= base
    decreases |ByteUnits| - k
  {
    if k == |ByteUnits| then k
    else if Abs(Scaled(num, base, k)) < base then k
    else Exponent(num, base, k + 1)
  }

  /** Scaling loses nothing: the scaled value times base^k is the original. */
  lemma {:induction false} ScaledRoundTrip(num: real, base: real, k: nat)
    requires base > 0.0
    ensures Scaled(num, base, k) * Pow(base, k) == num
  {
    if k > 0 {
      ScaledRoundTrip(num, base, k - 1);
      var x := Scaled(num, base, k - 1);
      var p := Pow(base, k - 1);
      assert Scaled(num, base, k) * Pow(base, k) == (x / base) * (base * p);
      assert (x / base) * (base * p) == x * p;
    }
  }

  /** bytes_to_human without the digit rendering: the scaled value and its unit, dividing by 1000
      until the magnitude is below 1000 and falling back to YB past ZB. */
  method BytesToHuman(num: real) returns (value: real, unit: string)
    ensures var e := Exponent(num, 1000.0, 0);
      value == Scaled(num, 1000.0, e) && unit == (ByteUnits + ["YB"])[e]
  {
    value := num;
    var i := 0;
    while i < |ByteUnits|
      invariant 0 <= i <= |ByteUnits|
      invariant value == Scaled(num, 1000.0, i)
      invariant Exponent(num, 1000.0, 0) == Exponent(num, 1000.0, i)
    {
      if Abs(value) < 1000.0 {
        unit := ByteUnits[i];
        return;
      }
      value := value / 1000.0;
      i := i + 1;
    }
    unit := "YB";
  }

  lemma {:induction false} ScaledNonNegative(num: real, base: real, k: nat)
    requires base > 0.0 && num >= 0.0
    ensures Scaled(num, base, k) >= 0.0
  {
    if k > 0 {
      ScaledNonNegative(num, base, k - 1);
    }
  }

  /** The unit loop of _fetch_fs: the available bytes scaled by 1024 until below 1024, with their
      unit; None when even ZB is too small. */
  method FsHuman(bytes: nat) returns (r: Option<(real, string)>)
    ensures var e := Exponent(bytes as real, 1024.0, 0);
      r == if e < |ByteUnits| then Some((Scaled(bytes as real, 1024.0, e), ByteUnits[e])) else None
  {
    var value := bytes as real;
    var i := 0;
    while i < |ByteUnits|
      invariant 0 <= i <= |ByteUnits|
      invariant value == Scaled(bytes as real, 1024.0, i)
      invariant Exponent(bytes as real, 1024.0, 0) == Exponent(bytes as real, 1024.0, i)
    {
      ScaledNonNegative(bytes as real, 1024.0, i);
      if value < 1024.0 {
        return Some((value, ByteUnits[i]));
      }
      value := value / 1024.0;
      i := i + 1;
    }
    return None;
  }

  // ---------------------------------------------------------------------------------------------
  // /proc/swaps

  /** The fields of one data line of /proc/swaps unpacked into five names, the third the size and
      the fourth the amount used; any other count raises ValueError, as does a non-numeric field. */
  function SwapRow(fields: seq<string>): Result<(int, int)> {
    if |fields| != 5 then Err(ValueError)
    else
      var size :- ParseInt(fields[2]);
      var used :- ParseInt(fields[3]);
      Ok((size, used))
  }

  /** line.split() of every line. */
  function SplitLines(lines: seq<string>): (r: seq<seq<string>>)
    ensures |r| == |lines|
  {
    if lines == [] then [] else SplitLines(lines[..|lines| - 1]) + [Words(lines[|lines| - 1])]
  }

  /** The summed (size, used) over the rows, the first bad row raising. */
  function SwapTotals(rows: seq<seq<string>>): Result<(int, int)>
    decreases |rows|
  {
    if rows == [] then Ok((0, 0))
    else
      var prefix :- SwapTotals(rows[..|rows| - 1]);
      var last :- SwapRow(rows[|rows| - 1]);
      Ok((prefix.0 + last.0, prefix.1 + last.1))
  }

  datatype SwapReading = Percent(value: real) | NotAvailable

  /** The percentage _fetch_swap reports for given totals. */
  function SwapPercent(total: int, usage: int): real {
    if total == 0 then 0.0 else (usage * 100) as real / total as real
  }

  /** The data lines of /proc/swaps: all but the header. */
  function DataLines(lines: seq<string>): seq<string> {
    if lines == [] then [] else lines[1..]
  }

  /** What _fetch_swap returns for the content of /proc/swaps; None stands for the IOError of an
      unreadable file, which yields "N/A". */
  function SwapReport(file: Option<seq<string>>): Result<SwapReading> {
    match file
    case None => Ok(NotAvailable)
    case Some(lines) =>
      var t :- SwapTotals(SplitLines(DataLines(lines)));
      Ok(Percent(SwapPercent(t.0, t.1)))
  }

  /** _fetch_swap. */
  method FetchSwap(file: Option<seq<string>>) returns (r: Result<SwapReading>)
    ensures r == SwapReport(file)
  {
    if file.None? {
      return Ok(NotAvailable);
    }
    var lines := DataLines(file.value);
    ghost var rows := SplitLines(lines);
    var total, usage := 0, 0;
    var i := 0;
    while i < |lines|
      invariant 0 <= i <= |lines| == |rows|
      invariant SwapTotals(rows[..i]) == Ok((total, usage))
    {
      var fields := Words(lines[i]);
      assert rows[i] == fields by { SplitLinesIndex(lines, i); }
      var row := SwapRow(fields);
      if row.Err? {
        assert SwapTotals(rows) == Err(row.error) by { SwapStepErr(rows, i); }
        return Err(row.error);
      }
      SwapStepOk(rows, i, total, usage);
      total := total + row.value.0;
      usage := usage + row.value.1;
      i := i + 1;
    }
    assert rows[..i] == rows;
    r := Ok(Percent(SwapPercent(total, usage)));
  }

  lemma {:induction false} SplitLinesIndex(lines: seq<string>, i: nat)
    requires i < |lines|
    ensures SplitLines(lines)[i] == Words(lines[i])
  {
    if i < |lines| - 1 {
      SplitLinesIndex(lines[..|lines| - 1], i);
    }
  }

  /** One more row of the summation that raises: the whole summation raises with its error. */
  lemma SwapStepErr(rows: seq<seq<string>>, i: nat)
    requires i < |rows| && SwapTotals(rows[..i]).Ok? && SwapRow(rows[i]).Err?
    ensures SwapTotals(rows) == Err(SwapRow(rows[i]).error)
  {
    assert rows[..i + 1] == rows[..i] + [rows[i]];
    SwapTotalsSnoc(rows[..i], rows[i]);
    SwapErrorSticks(rows, i + 1);
  }

  /** One more row of the summation that parses: its size and usage are added. */
  lemma SwapStepOk(rows: seq<seq<string>>, i: nat, total: int, usage: int)
    requires i < |rows| && SwapTotals(rows[..i]) == Ok((total, usage)) && SwapRow(rows[i]).Ok?
    ensures SwapTotals(rows[..i + 1]) == Ok((total + SwapRow(rows[i]).value.0, usage + SwapRow(rows[i]).value.1))
  {
    assert rows[..i + 1] == rows[..i] + [rows[i]];
    SwapTotalsSnoc(rows[..i], rows[i]);
  }

  lemma SwapTotalsSnoc(init: seq<seq<string>>, row: seq<string>)
    requires SwapTotals(init).Ok?
    ensures SwapRow(row).Err? ==> SwapTotals(init + [row]) == Err(SwapRow(row).error)
    ensures SwapRow(row).Ok? ==>
      SwapTotals(init + [row]) == Ok((SwapTotals(init).value.0 + SwapRow(row).value.0,
                                      SwapTotals(init).value.1 + SwapRow(row).value.1))
  {
    var rows := init + [row];
    assert rows[..|rows| - 1] == init;
    assert rows[|rows| - 1] == row;
  }

  /** A row that raises makes the whole summation raise with its error. */
  lemma {:induction false} SwapErrorSticks(rows: seq<seq<string>>, n: nat)
    requires 0 < n <= |rows| && SwapTotals(rows[..n]).Err?
    ensures SwapTotals(rows) == SwapTotals(rows[..n])
    decreases |rows| - n
  {
    if n < |rows| {
      assert rows[..n + 1][..n] == rows[..n];
      SwapErrorSticks(rows, n + 1);
    } else {
      assert rows[..n] == rows;
    }
  }

  /** One row of the swap table, with the whitespace after each of its five fields. The kernel
      pads the file name to 40 columns with blanks, separates the other fields with tabs and ends
      the line with a newline; any runs of whitespace read the same. */
  datatype SwapEntry = SwapEntry(filename: string, kind: string, size: nat, used: nat, priority: int,
                                 gaps: (string, string, string, string, string))

  predicate ValidEntry(e: SwapEntry) {
    e.filename != [] && NoSpace(e.filename) && e.kind != [] && NoSpace(e.kind)
    && Gap(e.gaps.0) && Gap(e.gaps.1) && Gap(e.gaps.2) && Gap(e.gaps.3) && Gap(e.gaps.4)
  }

  function EntryGaps(e: SwapEntry): seq<string> {
    [e.gaps.0, e.gaps.1, e.gaps.2, e.gaps.3, e.gaps.4]
  }

  /** The line of /proc/swaps for one entry. */
  function EntryLine(e: SwapEntry): string {
    FieldLine(EntryFields(e), EntryGaps(e))
  }

  function EntryFields(e: SwapEntry): seq<string> {
    [e.filename, e.kind, NatToString(e.size), NatToString(e.used), IntToString(e.priority)]
  }

  function EntryLines(es: seq<SwapEntry>): (r: seq<string>)
    ensures |r| == |es|
  {
    if es == [] then [] else EntryLines(es[..|es| - 1]) + [EntryLine(es[|es| - 1])]
  }

  /** The lines of /proc/swaps for a table: a header, then one line per entry. */
  function SwapFile(header: string, es: seq<SwapEntry>): seq<string> {
    [header] + EntryLines(es)
  }

  function SumSizes(es: seq<SwapEntry>): int {
    if es == [] then 0 else SumSizes(es[..|es| - 1]) + es[|es| - 1].size
  }

  function SumUsed(es: seq<SwapEntry>): int {
    if es == [] then 0 else SumUsed(es[..|es| - 1]) + es[|es| - 1].used
  }

  lemma DigitsNoSpace(s: string)
    requires AllDigits(s)
    ensures NoSpace(s)
  {
    forall i | 0 <= i < |s| ensures !IsSpace(s[i]) {
      assert IsDigit(s[i]);
    }
  }

  /** An entry's line splits into its fields. */
  lemma EntryLineSplits(e: SwapEntry)
    requires ValidEntry(e)
    ensures Words(EntryLine(e)) == EntryFields(e)
  {
    var f := EntryFields(e);
    DigitsNoSpace(f[2]);
    DigitsNoSpace(f[3]);
    if e.priority < 0 {
      DigitsNoSpace(NatToString(-e.priority));
      assert f[4] == "-" + NatToString(-e.priority);
    } else {
      DigitsNoSpace(f[4]);
    }
    WordsOfFieldLine(f, EntryGaps(e));
  }

  lemma EntryRow(e: SwapEntry)
    ensures SwapRow(EntryFields(e)) == Ok((e.size as int, e.used as int))
  {
    ParseIntRoundTrip(e.size);
    ParseIntRoundTrip(e.used);
  }

  function EntryRows(es: seq<SwapEntry>): (r: seq<seq<string>>)
    ensures |r| == |es|
  {
    if es == [] then [] else EntryRows(es[..|es| - 1]) + [EntryFields(es[|es| - 1])]
  }

  lemma {:induction false} SplitEntryLines(es: seq<SwapEntry>)
    requires forall i :: 0 <= i < |es| ==> ValidEntry(es[i])
    ensures SplitLines(EntryLines(es)) == EntryRows(es)
  {
    if es != [] {
      var lines := EntryLines(es);
      SplitEntryLines(es[..|es| - 1]);
      EntryLineSplits(es[|es| - 1]);
      assert lines[..|lines| - 1] == EntryLines(es[..|es| - 1]);
    }
  }

  /** Rows that each parse to an entry's size and use sum to the table's totals. */
  lemma {:induction false} TotalsOfParsedRows(rows: seq<seq<string>>, es: seq<SwapEntry>)
    requires |rows| == |es| && forall i :: 0 <= i < |rows| ==> SwapRow(rows[i]) == Ok((es[i].size as int, es[i].used as int))
    ensures SwapTotals(rows) == Ok((SumSizes(es), SumUsed(es)))
  {
    if rows != [] {
      var n := |rows| - 1;
      TotalsOfParsedRows(rows[..n], es[..n]);
      SwapTotalsSnoc(rows[..n], rows[n]);
      assert rows[..n] + [rows[n]] == rows;
    }
  }

  /** The rows of a table are its entries' fields. */
  lemma {:induction false} EntryRowsAt(es: seq<SwapEntry>)
    ensures forall i :: 0 <= i < |es| ==> EntryRows(es)[i] == EntryFields(es[i])
  {
    if es != [] {
      var n := |es| - 1;
      EntryRowsAt(es[..n]);
      assert EntryRows(es) == EntryRows(es[..n]) + [EntryFields(es[n])];
    }
  }

  lemma SwapTotalsOfRows(es: seq<SwapEntry>)
    ensures SwapTotals(EntryRows(es)) == Ok((SumSizes(es), SumUsed(es)))
  {
    var rows := EntryRows(es);
    forall i | 0 <= i < |rows|
      ensures SwapRow(rows[i]) == Ok((es[i].size as int, es[i].used as int))
    {
      EntryRowsAt(es);
      EntryRow(es[i]);
    }
    TotalsOfParsedRows(rows, es);
  }

  /** /proc/swaps as the kernel writes it reports the table's used space as a share of its size. */
  lemma SwapReportOfTable(header: string, es: seq<SwapEntry>)
    requires forall i :: 0 <= i < |es| ==> ValidEntry(es[i])
    ensures SwapReport(Some(SwapFile(header, es))) == Ok(Percent(SwapPercent(SumSizes(es), SumUsed(es))))
  {
    assert DataLines(SwapFile(header, es)) == EntryLines(es);
    SplitEntryLines(es);
    SwapTotalsOfRows(es);
  }

  lemma {:induction false} SumsBounded(es: seq<SwapEntry>)
    requires forall i :: 0 <= i < |es| ==> es[i].used <= es[i].size
    ensures 0 <= SumUsed(es) <= SumSizes(es)
  {
    if es != [] {
      SumsBounded(es[..|es| - 1]);
    }
  }

  lemma PercentBounds(total: int, usage: int)
    requires 0 <= usage <= total
    ensures 0.0 <= SwapPercent(total, usage) <= 100.0
  {
    if total != 0 {
      var t, x := total as real, (usage * 100) as real;
      assert x / t * t == x;
      assert x <= 100.0 * t;
    }
  }

  /** When every entry uses at most its size, the reported usage is a percentage. */
  lemma SwapPercentBounds(es: seq<SwapEntry>)
    requires forall i :: 0 <= i < |es| ==> es[i].used <= es[i].size
    ensures 0.0 <= SwapPercent(SumSizes(es), SumUsed(es)) <= 100.0
  {
    SumsBounded(es);
    PercentBounds(SumSizes(es), SumUsed(es));
  }

  // ---------------------------------------------------------------------------------------------
  // /proc/meminfo and the kernel release

  /** The first line that starts with the pattern, or IndexError (arr[0] of an empty list). */
  function Grep(pattern: string, lines: seq<string>): Result<string> {
    if lines == [] then Err(IndexError)
    else if pattern <= lines[0] then Ok(lines[0])
    else Grep(pattern, lines[1..])
  }

  /** digit_regex.findall(line)[0] as a number. */
  function FirstNumber(line: string): Result<nat> {
    match FirstDigits(line)
    case None => Err(IndexError)
    case Some(d) => Ok(DigitsValue(d))
  }

  /** (major, minor) of platform.release(): int() of the text before the first '.', and the first
      digits of the text between the first and the second '.'. */
  function KernelVersion(release: string): Result<(int, nat)> {
    var major :- ParseInt(Before(release, "."));
    match SecondField(release, ".")
    case None => Err(IndexError)
    case Some(field) =>
      match FirstDigits(field)
      case None => Err(AttributeError)
      case Some(d) => Ok((major, DigitsValue(d)))
  }

  /** The gate at sensors.py:440: kernels from 3.16 on have MemAvailable. */
  predicate UsesMemAvailable(major: int, minor: int) {
    (minor >= 16 && major == 3) || major > 3
  }

  /** 100 - 100 * spare / total: the share of memory that is not spare. */
  function InUse(spare: nat, total: nat): real
    requires total > 0
  {
    100.0 - 100.0 * spare as real / total as real
  }

  /** digit_regex.findall(grep(key, meminfo))[0] as a number. */
  function MemField(key: string, meminfo: seq<string>): Result<nat> {
    var line :- Grep(key, meminfo);
    FirstNumber(line)
  }

  /** The memory counted as spare: MemAvailable from 3.16 on, MemFree plus Cached before. */
  function Spare(meminfo: seq<string>, major: int, minor: int): Result<nat> {
    if UsesMemAvailable(major, minor) then MemField("MemAvailable", meminfo)
    else
      var free :- MemField("MemFree", meminfo);
      var cached :- MemField("Cached", meminfo);
      Ok(free + cached)
  }

  /** _fetch_mem: the percentage of physical memory in use. The fields are looked up in the
      source's order: MemTotal, the release, then MemAvailable or MemFree and Cached. */
  function MemUsed(meminfo: seq<string>, release: string): Result<real> {
    var total :- MemField("MemTotal", meminfo);
    var version :- KernelVersion(release);
    var spare :- Spare(meminfo, version.0, version.1);
    if total == 0 then Err(ZeroDivision) else Ok(InUse(spare, total))
  }

  lemma DigitsNoDot(s: string)
    requires AllDigits(s)
    ensures '.' !in s
  {
  }

  /** The digit run of a digit string followed by a non-digit. */
  lemma {:induction false} DigitRunOf(b: string, rest: string)
    requires AllDigits(b) && (rest == [] || !IsDigit(rest[0]))
    ensures DigitRun(b + rest) == b
  {
    if b != [] {
      assert (b + rest)[1..] == b[1..] + rest;
      DigitRunOf(b[1..], rest);
      assert [b[0]] + b[1..] == b;
    } else {
      assert b + rest == rest;
    }
  }

  /** The text before the first '.' of a + "." + rest, and the text after it. */
  lemma SplitAtDot(a: string, rest: string)
    requires '.' !in a
    ensures Before(a + "." + rest, ".") == a
    ensures SecondField(a + "." + rest, ".") == Some(Before(rest, "."))
  {
    var s := a + "." + rest;
    assert s == a + ("." + rest);
    FindCharShift(a, "." + rest, '.');
    assert Find("." + rest, ".") == Some(0);
    assert s[..|a|] == a;
    assert s[|a| + 1..] == rest;
  }

  /** Before(b + rest, ".") keeps all of a dot-free b. */
  lemma BeforeKeeps(b: string, rest: string)
    requires '.' !in b
    ensures exists tail :: Before(b + rest, ".") == b + tail && (tail == [] || tail[0] == rest[0])
  {
    FindCharShift(b, rest, '.');
    match Find(rest, ".")
    case None =>
      assert Before(b + rest, ".") == b + rest;
    case Some(j) =>
      assert Before(b + rest, ".") == (b + rest)[..|b| + j] == b + rest[..j];
  }

  /** A release string "major.minor.rest" reads back as (major, minor). */
  lemma KernelVersionOf(major: nat, minor: nat, rest: string)
    requires rest == [] || !IsDigit(rest[0])
    ensures KernelVersion(NatToString(major) + "." + NatToString(minor) + rest) == Ok((major as int, minor))
  {
    var a, b := NatToString(major), NatToString(minor);
    DigitsNoDot(a);
    DigitsNoDot(b);
    assert a + "." + b + rest == a + "." + (b + rest);
    SplitAtDot(a, b + rest);
    ParseIntRoundTrip(major);
    BeforeKeeps(b, rest);
    var tail :| Before(b + rest, ".") == b + tail && (tail == [] || tail[0] == rest[0]);
    DigitRunOf(b, tail);
    assert (b + tail)[0] == b[0];
    assert IsDigit(b[0]);
    DigitsRoundTrip(minor);
  }

  /** Text between a label and its value: blanks, tabs or anything else without a digit. */
  predicate Padding(pad: string) {
    forall i :: 0 <= i < |pad| ==> !IsDigit(pad[i])
  }

  /** A /proc/meminfo line: the key and a colon, the padding, then the value in kB. */
  function MemInfoLine(key: string, pad: string, value: nat): string {
    key + ":" + pad + NatToString(value) + " kB\n"
  }

  function Blanks(n: nat): (r: string)
    ensures |r| == n && Padding(r)
  {
    seq(n, _ => ' ')
  }

  /** The blanks the kernel writes between "key:" and the value: it pads the label to 16 columns
      and right-aligns the value in 8. */
  function KernelPad(key: string, value: nat): string {
    var d := NatToString(value);
    Blanks((if |key| < 15 then 15 - |key| else 0) + (if |d| < 8 then 8 - |d| else 0))
  }

  /** The line the kernel writes for key, e.g. "MemTotal:       16318412 kB". */
  function KernelLine(key: string, value: nat): string {
    MemInfoLine(key, KernelPad(key, value), value)
  }

  /** Line i of a meminfo file is the first one that starts with key (the line grep() picks) and
      it is a line for key with the given value, padded with `pad`. */
  predicate FieldAt(key: string, meminfo: seq<string>, i: nat, pad: string, value: nat) {
    i < |meminfo| && Padding(pad) && meminfo[i] == MemInfoLine(key, pad, value)
    && forall j :: 0 <= j < i ==> !(key <= meminfo[j])
  }

  /** Some line of a meminfo file is the one grep() picks for key, and it is a line for key with
      the given value, however it is padded. */
  ghost predicate HasField(key: string, meminfo: seq<string>, value: nat) {
    exists i: nat, pad: string | i < |meminfo| :: FieldAt(key, meminfo, i, pad, value)
  }

  /** The meminfo file holds the fields one reading looks at: MemTotal always, then MemAvailable
      from 3.16 on or MemFree and Cached before; any other lines may come before or between them. */
  ghost predicate ReadableFile(meminfo: seq<string>, major: int, minor: int,
                         total: nat, free: nat, available: nat, cached: nat)
  {
    HasField("MemTotal", meminfo, total)
    && if UsesMemAvailable(major, minor) then HasField("MemAvailable", meminfo, available)
       else HasField("MemFree", meminfo, free) && HasField("Cached", meminfo, cached)
  }

  /** The lines of /proc/meminfo the reading looks at, in the kernel's order. */
  function MemInfoFile(total: nat, free: nat, available: nat, cached: nat): seq<string> {
    [KernelLine("MemTotal", total), KernelLine("MemFree", free), KernelLine("MemAvailable", available),
     KernelLine("Cached", cached)]
  }

  /** Reference reading: the share of memory not available (from 3.16 on) or neither free nor
      cached (before). */
  function MemShare(major: int, minor: int, total: nat, free: nat, available: nat, cached: nat): real
    requires total > 0
  {
    InUse(if UsesMemAvailable(major, minor) then available else free + cached, total)
  }

  lemma {:induction false} FirstDigitsSkip(a: string, rest: string)
    requires forall i :: 0 <= i < |a| ==> !IsDigit(a[i])
    ensures FirstDigits(a + rest) == FirstDigits(rest)
  {
    if a != [] {
      assert (a + rest)[0] == a[0];
      assert (a + rest)[1..] == a[1..] + rest;
      FirstDigitsSkip(a[1..], rest);
    } else {
      assert a + rest == rest;
    }
  }

  /** A meminfo line with a digit-free key and padding reads as its value, however long the
      padding. */
  lemma FirstNumberOfLine(key: string, pad: string, value: nat)
    requires forall i :: 0 <= i < |key| ==> !IsDigit(key[i])
    requires Padding(pad)
    ensures FirstNumber(MemInfoLine(key, pad, value)) == Ok(value)
  {
    var head, d := key + ":" + pad, NatToString(value);
    assert MemInfoLine(key, pad, value) == head + (d + " kB\n");
    assert forall i :: 0 <= i < |head| ==> !IsDigit(head[i]) by {
      forall i | 0 <= i < |head| ensures !IsDigit(head[i]) {
        if i < |key| { assert head[i] == key[i]; }
        else if i == |key| { assert head[i] == ':'; }
        else { assert head[i] == pad[i - |key| - 1]; }
      }
    }
    FirstDigitsSkip(head, d + " kB\n");
    DigitRunOf(d, " kB\n");
    assert (d + " kB\n")[0] == d[0];
    assert IsDigit(d[0]);
    DigitsRoundTrip(value);
  }

  /** grep() returns the first line that starts with the pattern. */
  lemma {:induction false} GrepFinds(key: string, meminfo: seq<string>, i: nat)
    requires i < |meminfo| && key <= meminfo[i]
    requires forall j :: 0 <= j < i ==> !(key <= meminfo[j])
    ensures Grep(key, meminfo) == Ok(meminfo[i])
  {
    if i > 0 {
      assert !(key <= meminfo[0]);
      assert forall j :: 0 <= j < i - 1 ==> meminfo[1..][j] == meminfo[j + 1];
      GrepFinds(key, meminfo[1..], i - 1);
    }
  }

  /** A field whose first line is the kernel's reads as that line's value. */
  lemma MemFieldAt(key: string, meminfo: seq<string>, i: nat, pad: string, value: nat)
    requires forall k :: 0 <= k < |key| ==> !IsDigit(key[k])
    requires FieldAt(key, meminfo, i, pad, value)
    ensures MemField(key, meminfo) == Ok(value)
  {
    assert MemInfoLine(key, pad, value)[..|key|] == key;
    GrepFinds(key, meminfo, i);
    FirstNumberOfLine(key, pad, value);
  }

  lemma FieldOf(key: string, meminfo: seq<string>, value: nat)
    requires forall k :: 0 <= k < |key| ==> !IsDigit(key[k])
    requires HasField(key, meminfo, value)
    ensures MemField(key, meminfo) == Ok(value)
  {
    var i: nat, pad: string :| i < |meminfo| && FieldAt(key, meminfo, i, pad, value);
    MemFieldAt(key, meminfo, i, pad, value);
  }

  /** The MemTotal lookup on a meminfo file whose first MemTotal line holds the total, padded
      in any way, gives the total. */
  lemma MemTotalOfFile(meminfo: seq<string>, i: nat, pad: string, total: nat)
    requires FieldAt("MemTotal", meminfo, i, pad, total)
    ensures MemField("MemTotal", meminfo) == Ok(total)
  {
    MemFieldAt("MemTotal", meminfo, i, pad, total);
  }

  lemma SpareOfFile(meminfo: seq<string>, major: int, minor: nat,
                    total: nat, free: nat, available: nat, cached: nat)
    requires ReadableFile(meminfo, major, minor, total, free, available, cached)
    ensures Spare(meminfo, major, minor) == Ok(if UsesMemAvailable(major, minor) then available else free + cached)
  {
    if UsesMemAvailable(major, minor) {
      FieldOf("MemAvailable", meminfo, available);
    } else {
      FreeAndCached(meminfo, free, cached);
    }
  }

  lemma FreeAndCached(meminfo: seq<string>, free: nat, cached: nat)
    requires HasField("MemFree", meminfo, free) && HasField("Cached", meminfo, cached)
    ensures MemField("MemFree", meminfo) == Ok(free) && MemField("Cached", meminfo) == Ok(cached)
  {
    FieldOf("MemFree", meminfo, free);
    FieldOf("Cached", meminfo, cached);
  }

  /** _fetch_mem on a meminfo file holding the fields it reads, with a release string that reads as
      (major, minor) (KernelVersionOf gives one for every version), is the reference reading. */
  lemma MemUsedOfFile(meminfo: seq<string>, release: string, major: int, minor: nat,
                      total: nat, free: nat, available: nat, cached: nat)
    requires total > 0 && KernelVersion(release) == Ok((major, minor))
    requires ReadableFile(meminfo, major, minor, total, free, available, cached)
    ensures MemUsed(meminfo, release) == Ok(MemShare(major, minor, total, free, available, cached))
  {
    assert MemField("MemTotal", meminfo) == Ok(total) by {
      var i: nat, pad: string :| i < |meminfo| && FieldAt("MemTotal", meminfo, i, pad, total);
      MemTotalOfFile(meminfo, i, pad, total);
    }
    var spare := if UsesMemAvailable(major, minor) then available else free + cached;
    assert Spare(meminfo, major, minor) == Ok(spare) by {
      SpareOfFile(meminfo, major, minor, total, free, available, cached);
    }
  }

  /** The kernel's own file, in the kernel's order, holds every field a reading looks at. */
  lemma KernelFileReadable(total: nat, free: nat, available: nat, cached: nat, major: int, minor: int)
    ensures ReadableFile(MemInfoFile(total, free, available, cached), major, minor, total, free, available, cached)
  {
    var lines := MemInfoFile(total, free, available, cached);
    assert !("MemFree" <= lines[0]) by { assert lines[0][3] == 'T'; }
    assert !("MemAvailable" <= lines[0]) by { assert lines[0][3] == 'T'; }
    assert !("MemAvailable" <= lines[1]) by { assert lines[1][3] == 'F'; }
    assert !("Cached" <= lines[0]) by { assert lines[0][0] == 'M'; }
    assert !("Cached" <= lines[1]) by { assert lines[1][0] == 'M'; }
    assert !("Cached" <= lines[2]) by { assert lines[2][0] == 'M'; }
    assert FieldAt("MemTotal", lines, 0, KernelPad("MemTotal", total), total);
    assert FieldAt("MemFree", lines, 1, KernelPad("MemFree", free), free);
    assert FieldAt("MemAvailable", lines, 2, KernelPad("MemAvailable", available), available);
    assert FieldAt("Cached", lines, 3, KernelPad("Cached", cached), cached);
  }

  /** When the kernel's counts fit in the total, the reference reading is a percentage. */
  lemma MemShareBounds(major: int, minor: int, total: nat, free: nat, available: nat, cached: nat)
    requires total > 0 && available <= total && free + cached <= total
    ensures 0.0 <= MemShare(major, minor, total, free, available, cached) <= 100.0
  {
    var x := (if UsesMemAvailable(major, minor) then available else free + cached) as real;
    RatioBounds(100.0 * x, total as real, 100.0);
  }

  lemma RatioBounds(x: real, t: real, c: real)
    requires 0.0 <= x <= c * t && t > 0.0
    ensures 0.0 <= x / t <= c
  {
    assert x / t * t == x;
  }

  // ---------------------------------------------------------------------------------------------
  // CPU

  function Sum(xs: seq<real>): real {
    if xs == [] then 0.0 else Sum(xs[..|xs| - 1]) + xs[|xs| - 1]
  }

  /** _fetch_cpu(): the per-core loads summed and divided by the CPU count. */
  method CpuAverage(load: seq<real>, count: int) returns (r: Result<real>)
    ensures count == 0 ==> r == Err(ZeroDivision)
    ensures count != 0 ==> r == Ok(Sum(load) / count as real)
  {
    var total := 0.0;
    var i := 0;
    while i < |load|
      invariant 0 <= i <= |load|
      invariant total == Sum(load[..i])
    {
      assert load[..i + 1][..i] == load[..i];
      total := total + load[i];
      i := i + 1;
    }
    assert load[..i] == load;
    if count == 0 {
      return Err(ZeroDivision);
    }
    return Ok(total / count as real);
  }

  lemma {:induction false} SumBounds(xs: seq<real>)
    requires forall i :: 0 <= i < |xs| ==> 0.0 <= xs[i] <= 100.0
    ensures 0.0 <= Sum(xs) <= 100.0 * |xs| as real
  {
    if xs != [] {
      SumBounds(xs[..|xs| - 1]);
    }
  }

  /** With one load per CPU, each a percentage, the average is a percentage. */
  lemma CpuAverageBounds(load: seq<real>)
    requires |load| > 0
    requires forall i :: 0 <= i < |load| ==> 0.0 <= load[i] <= 100.0
    ensures 0.0 <= Sum(load) / |load| as real <= 100.0
  {
    SumBounds(load);
    var n := |load| as real;
    assert Sum(load) / n <= 100.0 * n / n;
  }
}
