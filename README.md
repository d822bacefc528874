# indicator-sysmonitor: the sensor registry and the label pipeline

indicator-sysmonitor is a panel applet. It shows a line of text built from a template such as
`cpu: {cpu} mem: {mem}`. Each `{token}` of the template names a sensor. On every tick of a
timer, a fetcher reads each token's value: a built-in sensor reads the machine, and a custom
sensor runs a shell command. The values are substituted into the template, and the result is
set as the label of the panel button. A value may carry an icon marker (`use_icon:<path>` or
`clear_icon`), which changes the button's icon and is hidden from the label.

This project models that core in Dafny and proves properties of the model:

- **Registry** (`sensors.py`, `SensorManager`). This is the map from sensor keys to
  `(description, command)`.
  - Keys read as patterns, so `cpu\d*` covers `cpu`, `cpu0` and `cpu12`.
  - It has a matcher compiled from the keys, plus `add`, `delete`, `edit` and `load_settings`.
  - `get` and `check` dispatch a token to the thirteen built-ins in their fixed order.
  - `get_results` is one fetch cycle, and `get_label` renders the result.
  - `get_guide` is one fetch cycle whose values, with sample values put in, fill the template.
- **Built-ins** (`sensors.py`).
  - Each built-in's three-way check: accept, not mine, or raise.
  - The value each built-in reads from a `Host` snapshot.
  - The network counters' baseline, and the cache of `upordown` and `publicip`.
  - The unit loops of `bytes_to_human` and `_fetch_fs`, the `/proc/swaps` sum, the
    `/proc/meminfo` reading with its kernel-version gate, and the CPU average.
- **Fetcher** (`sensors.py`, `StatusFetcher`). A tick fetches, delivers, and re-arms only
  while the fetcher is alive.
- **Preferences** (`preferences.py`).
  - `update_parent` validates the template tokens and the interval, commits them, restarts the
    fetcher and fetches the guide.
  - The sensor list's delete handler removes the placeholders of the deleted sensor.
  - The add/edit handler dispatches to `add` or `edit`.
- **Indicator** (`budgiesysmonitor.py`, `IndicatorSysmonitor`). `update` rewrites marked
  values, emits icon calls, and delivers the stripped label. `load_settings` and
  `update_settings` restart the fetcher, and `load_settings` then fetches the guide.

The stateful parts are Dafny classes whose methods update fields. Each method is proved equal
to a pure function of the old state, and the properties are lemmas about those functions:

- `SensorManager` holds the settings, the matcher and the fetcher.
- `NetSensor` and `CachedSensor` hold the per-sensor state.
- `StatusFetcher` holds `alive` and whether its timer is armed.
- `IndicatorSysmonitor` keeps the list of button calls it has made.
- `Preferences` and `SensorsListModel` hold the template entry and the list rows.

Everything the program reads from outside is a parameter:

- `Host` is one cycle's view of the machine. It holds the CPU count and loads, existing paths,
  file-system space, `/proc/meminfo` and `/proc/swaps` lines, the kernel release, network
  counters, battery capacities, the GPU and thermal readings, and the output of shell commands.
  It also holds the digit rendering of floats.
- The clock, the parsed configuration file, the float parse of the interval entry, and the
  order in which a dictionary yields its keys are also parameters.

Modules, one file each:
- `outcome.dfy` (`Outcome`): `Option`, `Result` and `Status`, and the exceptions the program raises.
- `text.dfy` (`Text`): the Python string operations the code uses. These are strip, lower,
  find/`in`, split, replace, int and str, and `{:>9s}` padding.
- `patterns.dfy` (`Patterns`): a key read as a regular expression. `Literal` is a plain name,
  `PrefixDigits` is `cpu\d*` or `bat\d*`, and `PrefixNonEmpty` is `fs//.+`.
- `template.dfy` (`Template`): `{.+?}` token extraction, `str.format` restricted to keyword
  fields, and `get_label`.
- `units.dfy` (`Units`): unit selection, swap totals, memory in use, CPU average.
- `sensors.dfy` (`Sensors`): the built-ins.
- `registry.dfy` (`Registry`): the registry, the fetch cycle, and the fetcher's tick.
- `indicator.dfy` (`Indicator`): the panel indicator.
- `preferences.dfy` (`Prefs`): the preferences dialog and its sensor list.

Where the code behaves other than its comments and messages suggest, the model follows the code:
- `stop()` does not stop the delivery of the tick that is already armed. `run` fetches and
  delivers first, and only then looks at `alive`, so a stopped fetcher delivers once more.
- The KeyError diagnostic is `Invalid Sensor: 'name'`, with the quotes and escapes that
  `str(KeyError)` adds through `repr()`.
- When a custom command cannot be started, `script_exec` raises: its fallback `"Error"` is a
  `str`, which has no `decode()`. It does not yield "Error". Output that is not UTF-8 raises
  UnicodeDecodeError from `decode('utf-8')`.
- A configuration file that lacks a top-level key raises KeyError inside `load_settings`. The
  method logs the error. The keys applied before the missing one stay merged, and the matcher
  is not rebuilt.

Three places where the code evidently does not do what its authors meant are listed under
Findings. Each is modelled twice: as written, with a lemma that exhibits the failure, and
corrected. The rest of the model, including the classes, uses the corrected definition:
- The corrected update (`UpdateOutcome`, and `IndicatorSysmonitor.Update` and `Run`) sets the
  icon a `use_icon:path` marker names and puts back `icon` for a `clear_icon` marker. As written
  (`UpdateAsWritten`) both markers raise AttributeError at their first icon call: `self.ind` is a
  `Gtk.Button` (budgiesysmonitor.py:82), which has no `set_icon_full`, so the lookup of
  `set_icon_full` fails at budgiesysmonitor.py:137 and 146 before any icon changes. (At line 146
  the argument `self.tindicator`, which `on_exit` removes at budgiesysmonitor.py:192-194 but
  nothing assigns, is never reached.) The corrected model gives the button the `set_icon_full`
  of the AppIndicator the code evidently follows; `icon` stands for the indicator's own icon.
- The corrected edit (`EditOp`, `SensorManager.Edit` and the edit handler `EditSensorOp`) renames
  the `{name}` placeholders only, and keeps an entry whose name is unchanged. As written
  (`EditAsWritten`, `EditSensorWith` over it) it replaces every occurrence of the name as a
  substring, and deleting the old key after writing the new one deletes a sensor whose name is
  kept.

## Model

| member | source | states |
|---|---|---|
| Text.StripSpec | budgiesysmonitor.py:139 | `strip()` leaves nothing exactly when the text is all whitespace; otherwise the result neither starts nor ends with whitespace |
| Text.Find | budgiesysmonitor.py:134 | `p in s`: the index found is an occurrence of p with no occurrence before it, and None means p occurs nowhere |
| Text.Before | budgiesysmonitor.py:139 | `s.split(sep)[0]` is a prefix of s; it is all of s when sep does not occur, and shorter when a non-empty sep does |
| Text.BeforeExcludes | budgiesysmonitor.py:139 | the text before the first occurrence of a non-empty separator does not contain the separator |
| Text.StripExcludes | budgiesysmonitor.py:139 | stripping never brings a marker back into a text that lacks it |
| Text.SecondField | budgiesysmonitor.py:135 | `v.split(":")[1]` exists (no IndexError) exactly when the separator occurs in v |
| Text.ReplaceAbsent | preferences.py:203 | `str.replace` of a non-empty text that does not occur leaves the string unchanged |
| Text.ReplaceIdentity | sensors.py:161-162 | replacing a text by itself leaves the string unchanged |
| Text.ParseInt | sensors.py:605-606 | `int()` either gives a number or raises ValueError, and no other exception; every canonical text `str(i)` parses back to i (Text.ParseIntRoundTrip); the accepted set is listed under Left out |
| Text.ParseIntRoundTrip | sensors.py:605-606 | `int(str(i)) == i` for every integer i |
| Text.LowerKeeps | budgiesysmonitor.py:133 | `lower()` leaves a text without upper-case letters as it is |
| Text.FirstDigits | sensors.py:439 | `re.search(r'\d+', s)` finds a non-empty run of ASCII digits, and finds none exactly when s has no ASCII digit |
| Text.WordsOfFieldLine | sensors.py:604 | `line.split()` of a line of non-blank fields separated by any non-empty runs of whitespace (spaces, tabs) gives the fields back, in order |
| Text.PadLeft | sensors.py:475 | `'{:>9s}'` right-aligns: the result ends with the text, is padded with blanks on the left, and is at least nine long |
| Patterns.KeyRoundTrip | sensors.py:91-98 | every key reads as a pattern whose text is the key again |
| Patterns.PatternRoundTrip | sensors.py:91-98 | every pattern written as a key reads back as the same pattern, provided a literal name is plain |
| Patterns.PlainByLastChar | sensors.py:95-98 | a name ending in neither `*` nor `+` reads as a literal name, which matches only itself |
| Patterns.PlainKeyMatchesItself | sensors.py:113-115 | `exists(n)` holds for every plain key n |
| Patterns.AddPlainKeepsUnambiguous | sensors.py:122-128 | adding a plain name that no key matches keeps every token matched by at most one key |
| Patterns.SubsetUnambiguous | sensors.py:130-142 | removing keys keeps every token matched by at most one key |
| Template.CloseFrom | preferences.py:220 | the lazy `.+?}` ends at the first `}` after at least one character, never crossing a newline |
| Template.Tokens | preferences.py:220 | every token `findall("{.+?}")` yields, braces removed, is non-empty and holds no newline |
| Template.SubstituteOk | sensors.py:223 | substituting into a template of placeholders succeeds exactly when every placeholder has a value; otherwise it raises KeyError for a placeholder without one |
| Template.TokensOfJoin | sensors.py:275-278 | the tokens the fetch cycle extracts from a template of literal text and `{name}` placeholders are exactly its placeholder names, in order |
| Template.FormatField | sensors.py:223 | `format(**data)` of `{n}` followed by more text gives data[n] then the rest, or KeyError(n) when n has no value |
| Template.FormatOfJoin | sensors.py:223 | `format(**data)` of such a template agrees with a reference substitution over the placeholders |
| Template.LabelOfJoin | sensors.py:219-232 | get_label gives "(no output)" for no values, the substituted text when every token has a value, and otherwise `Invalid Sensor: ` with a token that has no value |
| Template.ReplaceOtherField | preferences.py:203 | replacing `{name}` leaves a different placeholder `{n}` in place |
| Template.ReplaceField | preferences.py:203 | replacing `{name}` in such a template rewrites exactly the `{name}` placeholders and nothing else |
| Template.StripPlaceholder | preferences.py:201-203 | removing `{name}` leaves a template whose tokens are all the other tokens, in order, and never name |
| Template.RenamePlaceholder | sensors.py:161-162 | replacing `{name}` by `{newname}` renames that token and keeps every other token in its place |
| Template.KeysOf | budgiesysmonitor.py:132 | iterating a dictionary yields each key exactly once |
| Template.FirstFs | sensors.py:208-211 | the loop stops at the first key, in the dictionary's order, that starts with `fs`, and finds none exactly when no key does |
| Template.SampleData | sensors.py:208-214 | the loop to the first `fs` key and the four sample assignments leave exactly the guide's data |
| Template.GuideDataSpec | sensors.py:208-214 | the guide's data keeps every fetched key and adds mem, cpu, bat and net; those four hold the samples `000%` and `↓666kB/s ↑666kB/s`, the first `fs` key holds `000gB`, and every other key keeps its fetched value |
| Template.GuideOfJoin | sensors.py:216-217 | formatting the guide succeeds exactly when every field of the template was fetched or is one of the four sample keys, and otherwise raises KeyError for such a missing field |
| Template.GuideMissingValue | sensors.py:216-217 | a template `{n}` whose sensor gave no value, n not a sample key, makes get_guide raise KeyError(n) |
| Template.MissingSensorLabel | sensors.py:226-227 | a template `{n}` whose sensor gave no value renders as `Invalid Sensor: ` followed by repr(n), the text `str(KeyError(n))` shows |
| Text.Repr | sensors.py:226-227 | repr(s) is s between matching quotes, single ones unless s holds a single quote and no double quote, and is at least two longer than s |
| Text.EscapedPlain | sensors.py:226-227 | inside the quotes, printable characters other than the backslash and the quote are shown as they are |
| Text.ReprBackslash | sensors.py:226-227 | repr() doubles a backslash: `a\b` shows as `'a\\b'` |
| Text.ReprCharEscapes | sensors.py:226-227 | every character repr() escapes (the backslash, the quote in use, each ASCII control character) becomes a backslash and one letter, or `\x` and two hex digits, all printable ASCII |
| Text.ReprQuote | sensors.py:226-227 | a text holding a single quote and no double quote, and no backslash or ASCII control character, is shown between double quotes, unescaped |
| Text.ReprPlain | sensors.py:226-227 | a text with no single quote, no backslash and no ASCII control character is shown between single quotes, unescaped |
| Units.Exponent | sensors.py:35-38 | the unit chosen is the first at which the scaled value's magnitude drops below the base; every earlier unit was too small |
| Units.ScaledRoundTrip | sensors.py:38 | dividing k times by the base loses nothing: times base^k it is the original number |
| Units.BytesToHuman | sensors.py:34-39 | bytes_to_human's loop divides by 1000 until the magnitude is below 1000, picks the unit from B..ZB, and falls back to YB |
| Units.FsHuman | sensors.py:583-586 | _fetch_fs's loop divides by 1024 while the value is at least 1024, and yields nothing past ZB |
| Units.FetchSwap | sensors.py:596-614 | the loop of _fetch_swap computes the swap report: the header skipped, the size and used columns summed, 0 for a zero total, the first bad line's ValueError, and "N/A" for an unreadable file |
| Units.SwapErrorSticks | sensors.py:603-606 | the first line that does not unpack or parse decides the error of the whole summation |
| Units.EntryLineSplits | sensors.py:604 | a swap line splits into its five fields, whatever runs of blanks and tabs pad the columns |
| Units.SwapReportOfTable | sensors.py:601-611 | on a /proc/swaps table whose columns are separated by any runs of whitespace, the reading is the table's total used space as a share of its total size |
| Units.PercentBounds | sensors.py:608-611 | the swap percentage of totals with used within size lies between 0 and 100 |
| Units.SwapPercentBounds | sensors.py:608-611 | when every swap area uses at most its size, the reported usage is a percentage |
| Units.SplitAtDot | sensors.py:437 | `re.split('\.', release)` gives the text before the first dot, then the text up to the next one |
| Units.KernelVersionOf | sensors.py:437-439 | a release string `major.minor...` reads as (major, minor) |
| Units.FirstNumberOfLine | sensors.py:436 | the first number of a meminfo line `Key:` + padding + `value kB` is the value, for a digit-free key and any digit-free padding |
| Units.MemTotalOfFile | sensors.py:428-436 | on any meminfo file whose first line starting with `MemTotal` is `MemTotal:` + any digit-free padding + `value kB`, the MemTotal lookup gives that value |
| Units.SpareOfFile | sensors.py:440-450 | from 3.16 on the spare memory is MemAvailable; before, it is MemFree plus Cached; on any meminfo file whose first line for each field it reads is `Key:`, any digit-free padding and `value kB` |
| Units.MemUsedOfFile | sensors.py:425-450 | _fetch_mem is 100 - 100 * spare / total, with the version gate deciding what is spare, on any meminfo file whose first lines for MemTotal and the fields the gate picks hold their values after any digit-free padding, whatever other lines surround them |
| Units.GrepFinds | sensors.py:428-431 | grep() returns the first line that starts with the pattern |
| Units.MemFieldAt | sensors.py:436 | a field whose first line is `Key:`, any digit-free padding and `value kB` reads as that value |
| Units.KernelFileReadable | sensors.py:433-450 | /proc/meminfo as the kernel lays it out (the label padded to 16 columns, the value right-aligned in 8) holds, as first lines, every field either branch of the gate reads |
| Units.MemShareBounds | sensors.py:443-450 | when the kernel's counts fit in the total, memory in use is a percentage |
| Units.CpuAverage | sensors.py:405-415 | _fetch_cpu sums the per-core loads and divides by the CPU count (ZeroDivisionError for none) |
| Units.CpuAverageBounds | sensors.py:409-415 | with one load per CPU, each a percentage, the average is a percentage |
| Sensors.Check | sensors.py:313-565 | a built-in's check returns None exactly when the token is not its business; a built-in other than cpu, bat and fs never raises, so it accepts exactly its own name; CPU: a `cpu\d*` token is claimed, and its check raises exactly when the core it names (0 for `cpu`) is at or beyond cpu_count; battery: a `bat\d*` token is claimed, and its check raises exactly when `/sys/class/power_supply/BAT<n>` is absent; fs: an `fs//` token is claimed, and its check raises exactly when its mount point is absent |
| Sensors.FsPathSplit | sensors.py:561 | `sensor.split("//")[1]` of an `fs//` token is the path the check tests |
| Sensors.SlashesAfterFs | sensors.py:561 | the first `//` of an `fs//` token is the one after `fs` |
| Sensors.ClaimsDisjoint | sensors.py:69-81 | no token is the business of two built-ins |
| Sensors.KeyMatchClaimed | sensors.py:83-84 | every token a built-in's registered key matches is claimed by that built-in's check |
| Sensors.LiteralKey | sensors.py:83-84 | the keys of the plain built-ins read as literal names |
| Sensors.EveryKindListed | sensors.py:69-81 | every built-in is one of the instances |
| Sensors.FirstClaimOf | sensors.py:100-110 | when built-in k claims a token, get() returns what k's check decides, and check() raises exactly its error |
| Sensors.NoClaimant | sensors.py:100-110 | a token no built-in claims gives get() == None, and check() passes |
| Sensors.Dispatch | sensors.py:100-120 | get() returns the claiming built-in or raises its check's error, or returns None when none claims; check() raises exactly when get() does, with the same error |
| Sensors.CpuTokenClaimed | sensors.py:381-394 | `cpu3` goes to the CPU sensor with four or more CPUs and raises "Invalid number of CPUs." with two |
| Sensors.ScriptExec | sensors.py:328-337 | script_exec never gives an empty text; anything but "(no output)" is the stripped output of a shell command that started; it raises exactly when the command cannot start (the fallback "Error" has no decode) or its output is not UTF-8 (UnicodeDecodeError) |
| Sensors.NetSensor.constructor | sensors.py:456 | the baseline starts at [0, 0] |
| Sensors.NetSensor.Rates | sensors.py:461-474 | the rates are (current - previous) / interval per direction, and the baseline becomes the current totals |
| Sensors.RatesTelescope | sensors.py:469-474 | over any run of cycles the reported rates add up to the traffic since the first baseline, divided by the interval |
| Sensors.RatesExample | sensors.py:469-474 | counters 1000/500 then 3000/1500, two seconds apart from the zero baseline, report 500/250 and then 1000/500 bytes per second |
| Sensors.CachedSensor.constructor | sensors.py:623-624 | the cache starts empty, with time 0 |
| Sensors.CachedSensor.Value | sensors.py:626-631 | the value returned and the new cache are one step of the cache from the old one, whose refresh and hold behaviour the two lemmas below state |
| Sensors.CacheHolds | sensors.py:627 | after a successful refresh at a non-zero time, a call within the window returns the cached value, whatever the command would now print, and leaves the cache as it is |
| Sensors.CacheExpires | sensors.py:644-646 | once the window has passed, the next call runs the command again |
| Sensors.HumanText | sensors.py:34-39 | bytes_to_human renders the scaled value with two decimals, a blank and the unit the loop chose |
| Sensors.CpuValue | sensors.py:396-403 | `cpu` reads the average load, `cpu<n>` reads core n (IndexError past the list), anything else None |
| Sensors.FsValue | sensors.py:567-586 | an `fs//` token reads its path's free space with the 1024-base unit, and None when the path is gone or the space is beyond ZB |
| Sensors.ReadKeepsBank | sensors.py:505-518 | only the two net sensors and the two cached sensors change state when read; the others, such as totalnet, keep none |
| Sensors.ReadNonEmpty | sensors.py:281-284 | every value a built-in reads for a token it accepted is non-empty, so it is kept; only fs can give None |
| Registry.BuiltinEntriesOf | sensors.py:83-84 | every built-in is registered under its key with command True, and nothing else is |
| Registry.DefaultsRegisterEveryKind | sensors.py:69-84 | the initial settings register every built-in, with command True |
| Registry.AddSpec | sensors.py:122-128 | add raises exactly when some key already matches the name (or nothing was compiled yet), changing nothing; otherwise it stores (desc, cmd), keeps every other entry, recompiles, and a plain name then exists |
| Registry.AddKeepsUnambiguous | sensors.py:122-128 | adding a plain name keeps every token matched by at most one key |
| Registry.AddCpu3Refused | sensors.py:124-125 | a custom `cpu3` is refused with "Sensor name already in use." because `cpu\d*` matches it |
| Registry.DefaultsUnambiguous | sensors.py:69-98 | in the initial settings no token is matched by two of the built-ins' keys |
| Registry.EditToCpu3Accepted | sensors.py:155-157 | edit tests the new name by literal membership, so renaming a custom sensor to `cpu3` succeeds while the built-in `cpu\d*` is registered, and two keys then match `cpu3` |
| Registry.DeleteSpec | sensors.py:130-142 | delete raises exactly for a name that is not a key or whose command is True, changing nothing; otherwise it removes exactly that key and keeps every other entry |
| Registry.DeleteUndoesAdd | sensors.py:122-142 | deleting the sensor add() just stored gives back the settings from before the add |
| Registry.EditSpec | sensors.py:144-163 | the corrected edit raises exactly for a missing name, a built-in, or a new name that is already a key (literal membership, not the matcher), changing nothing; otherwise the entry is stored under the new name, the old key is gone, and every other entry is kept |
| Registry.EditRenamesToken | sensors.py:161-162 | on a template of literal text and placeholders, a successful corrected edit renames that token and keeps every other token in place |
| Registry.EditKeepingName | sensors.py:159-160 | the corrected edit with an unchanged name updates the entry in place and leaves the template |
| Registry.EditAsWrittenKeepingName | sensors.py:159-160 | as written, an edit that keeps the name deletes the sensor it edits |
| Registry.SubstringRewrite | sensors.py:161-162 | replacing the substring `m` by `n` turns `{mem}` into `{nen}` |
| Registry.PlaceholderRewrite | sensors.py:161-162 | replacing the placeholder `{m}` by `{n}` leaves `{mem}` alone |
| Registry.EditAsWrittenRewritesOtherTokens | sensors.py:161-162 | as written, renaming `m` to `n` corrupts the `{mem}` token; the corrected edit does not |
| Registry.LoadComplete | sensors.py:172-184 | a complete configuration sets every non-null value, keeps the current value of every null one, merges the saved sensors over the current ones (saved entries win, no key is lost), and recompiles |
| Registry.LoadIncomplete | sensors.py:168-188 | an unreadable file, or one missing a key, leaves the sensors and the matcher as they were; an unreadable file, or one missing `custom_text`, leaves everything |
| Registry.LoadKeepsSynced | sensors.py:184 | loading keeps the matcher compiled from the current keys, or absent |
| Registry.TraceStep | sensors.py:275-287 | the cycle over one more token is the step for that token applied to what came before |
| Registry.TraceErrorSticks | sensors.py:275-287 | an exception ends the cycle: later tokens are not looked at |
| Registry.TokenStepKeeps | sensors.py:278-287 | one token removes no value, and sets at most its own; a new value is never empty; a token no built-in claims gets its command's output |
| Registry.StepExtends | sensors.py:275-287 | a token whose step keeps the earlier values extends what a completed cycle promises to one more token |
| Registry.CycleValues | sensors.py:264-289 | a completed cycle's keys are template tokens with non-empty values, and every token no built-in claims is present with its command's output |
| Registry.AtMostOneAfterStop | sensors.py:714-721 | a stopped fetcher delivers at most once more |
| Registry.NothingOnceDetached | sensors.py:717-721 | once its timer is detached, a fetcher never delivers |
| Registry.LiveDeliversEveryTick | sensors.py:717-721 | a live fetcher whose fetches and deliveries return delivers on every tick |
| Registry.StatusFetcher.constructor | sensors.py:703-709 | a new fetcher is alive with its timer armed |
| Registry.StatusFetcher.Stop | sensors.py:714-715 | stop clears alive and leaves the timer armed |
| Registry.SensorManager.constructor | sensors.py:57-87 | the default settings with every built-in registered, no matcher yet, no fetcher, and zero baselines and empty caches |
| Registry.SensorManager.UpdateRegex | sensors.py:91-98 | the matcher is compiled from exactly the current keys, and nothing else changes |
| Registry.SensorManager.Get | sensors.py:100-110 | get returns the first instance, in the fixed order, whose check is not None |
| Registry.SensorManager.CheckAll | sensors.py:118-120 | check runs every instance's check and raises the first error |
| Registry.SensorManager.Add | sensors.py:122-128 | the manager's add leaves the state add's specification gives |
| Registry.SensorManager.Delete | sensors.py:130-142 | the manager's delete leaves the state delete's specification gives |
| Registry.SensorManager.Edit | sensors.py:144-163 | the manager's edit leaves the state the corrected edit gives |
| Registry.SensorManager.LoadSettings | sensors.py:165-188 | the manager's load_settings leaves the state of the merge over the parsed configuration |
| Registry.SensorManager.SetCustomText | sensors.py:252-253 | only the template changes |
| Registry.SensorManager.SetInterval | sensors.py:258-259 | only the interval changes |
| Registry.SensorManager.InitiateFetcher | sensors.py:234-239 | the old fetcher, if any, is stopped, and a new live fetcher is started; the settings are unchanged |
| Registry.SensorManager.NetValue | sensors.py:458-475 | net reports both rates, each rendered and padded, and moves its baseline |
| Registry.SensorManager.NetCompValue | sensors.py:482-499 | netcomp reports the sum of the two rates and moves its own baseline |
| Registry.SensorManager.CachedValue | sensors.py:626-648 | upordown and publicip read through their caches, with windows 10 and 600 |
| Registry.SensorManager.PlainValue | sensors.py:396-614 | every built-in without state (cpu, mem, totalnet, bat, fs, swap, the GPU and temperature sensors) reads what the model of that built-in gives and leaves the instances' state alone; totalnet divides the cumulative totals by the interval, and swap's "N/A" fails the format |
| Registry.SensorManager.GetValue | sensors.py:282 | get_value of the claiming instance is the value the model of that built-in reads, with the new state |
| Registry.SensorManager.FetchToken | sensors.py:278-287 | one token: the claiming built-in's truthy value is stored; an unclaimed token runs its stored command, and KeyError when it has none |
| Registry.GuideRaisesOnBadCpu | sensors.py:201-217 | a saved template `{cpu3}` on a two-CPU machine makes get_guide raise "Invalid number of CPUs.", in every dictionary order |
| Registry.CycleOfCpu3 | sensors.py:380-392 | the fetch cycle over the token `cpu3` on a two-CPU machine raises from the CPU check and leaves the gauges as they were |
| Registry.SensorManager.GetGuide | sensors.py:201-217 | get_guide runs one fetch cycle, keeps its new gauge state, and formats the template over the cycle's values with the sample values put in; a raising cycle raises its exception |
| Registry.SensorManager.GetResults | sensors.py:264-289 | get_results is the fetch cycle over the template's tokens, left to right, the first exception ending it, with the instances' new state |
| Indicator.MarkerRaises | budgiesysmonitor.py:132-146 | as written, a value raises AttributeError exactly when it holds `use_icon` and a colon, or `clear_icon` and no `use_icon`, since the button has no `set_icon_full`; no value changes the icon |
| Indicator.UseIconValue | budgiesysmonitor.py:133-143 | the value `use_icon:p` raises AttributeError as written, and under the corrected rewrite sets the icon `p` and shows a single blank |
| Indicator.UseIconCycle | budgiesysmonitor.py:127-161 | as written, a cycle whose one value is `use_icon:p` makes update raise before any icon call or label, and the tick detaches the timer of a live fetcher |
| Indicator.ClearIconValue | budgiesysmonitor.py:133-152 | the value `clear_icon` itself raises AttributeError as written, and under the corrected rewrite puts the icon back and shows a single blank |
| Indicator.ClearIconCycle | budgiesysmonitor.py:127-161 | as written, a cycle whose one value is `clear_icon` makes update raise before any icon call or label, and the tick detaches the timer of a live fetcher |
| Indicator.ClearIconCycleCorrected | budgiesysmonitor.py:127-161 | the corrected update of that cycle puts the icon back first, completes, and the timer stays attached |
| Indicator.RewriteOne | budgiesysmonitor.py:132-152 | the loop over a single key is the rewrite of its value |
| Indicator.RewriteAgrees | budgiesysmonitor.py:133-152 | the corrected rewrite agrees with the code as written wherever that does not raise AttributeError; with `clear_icon` it restores the icon last and shows the text before `clear_icon` |
| Indicator.UnmarkedKept | budgiesysmonitor.py:132-152 | a value with neither marker is unchanged and makes no icon call |
| Indicator.RemainingHidesMarker | budgiesysmonitor.py:139-143 | the text that replaces a marked value is never empty (a lone blank at least), and never shows the marker |
| Indicator.RewriteAllValues | budgiesysmonitor.py:132-152 | a completed loop keeps the keys, rewrites each value once from its original text, and keeps every other value |
| Indicator.RewriteAllEvents | budgiesysmonitor.py:134-146 | the icon calls of a completed loop are those of the values, in the dictionary's order |
| Indicator.CompleteFrom | budgiesysmonitor.py:132-152 | an exception in the loop ends it: later keys add nothing |
| Indicator.OutcomeOfError | budgiesysmonitor.py:127-161 | when the loop raises, update makes the loop's icon calls and sets no label |
| Indicator.OutcomeOfRewrite | budgiesysmonitor.py:154-161 | when the loop completes, the label of the rewritten data is set, stripped, exactly when it is not empty |
| Indicator.UpdateDelivers | budgiesysmonitor.py:154-161 | a completed update sets the label exactly when get_label's text is not empty, and sets it last |
| Indicator.EmptyCycleShowsNoOutput | sensors.py:223-224 | a cycle with no values shows "(no output)" |
| Indicator.IndicatorSysmonitor.constructor | budgiesysmonitor.py:78-91 | the button starts with "Init...", then the settings are loaded from the defaults, a fetcher is started, and the guide is fetched once from zero baselines and empty caches; its outcome, a raise or not, and the gauges it leaves are stated |
| Indicator.IndicatorSysmonitor.Update | budgiesysmonitor.py:127-161 | the corrected update: its calls on the button and its outcome are those the corrected specification of update gives |
| Indicator.IndicatorSysmonitor.ApplyMarkers | budgiesysmonitor.py:132-152 | the in-place loop over the values is the rewrite the specification gives |
| Indicator.IndicatorSysmonitor.LoadSettings | budgiesysmonitor.py:163-167 | the settings are loaded, the old fetcher is stopped and a new one started, and then the guide is fetched over the new settings: the gauges move as that cycle moves them and the outcome is get_guide's |
| Indicator.IndicatorSysmonitor.UpdateIndicatorGuide | budgiesysmonitor.py:123-125 | update_indicator_guide runs get_guide, discards its text, keeps the cycle's gauge state, and raises what get_guide raises |
| Indicator.IndicatorSysmonitor.UpdateSettings | budgiesysmonitor.py:173-174 | the fetcher is restarted, stopping the previous one; the settings are unchanged |
| Indicator.IndicatorSysmonitor.Run | sensors.py:717-721 | a tick fetches one cycle and hands it to the corrected update; the timer stays armed exactly as the tick rule says: only when both returned and the fetcher is still alive |
| Prefs.IntervalOf | preferences.py:367-373 | the interval passes exactly when it parses and is at least 1; otherwise "Interval value is not valid." or "... greater then or equal to 1 " |
| Prefs.TokensCheckAll | preferences.py:358-365 | the token loop passes exactly when every token passes, and otherwise raises what the first failing token raises |
| Prefs.FirstFailure | preferences.py:359-365 | the loop raises the error of the first token that fails |
| Prefs.UnsupportedTokenRefused | preferences.py:361-363 | a token that no key matches raises "{x} sensor not supported." when it is the first to fail |
| Prefs.UpdateParentSpec | preferences.py:355-376 | update_parent commits exactly when every token exists and passes every check and the interval is valid; a failure changes nothing; a commit writes only the template and the interval |
| Prefs.Report | preferences.py:182-187 | the handlers show an error dialog for an ISMError, and for nothing else |
| Prefs.WithoutName | preferences.py:200 | removing a row of distinct names removes exactly that name |
| Prefs.DropDistinct | preferences.py:200 | dropping one element of a sequence of distinct names keeps the others distinct and loses only that name |
| Prefs.AppendName | preferences.py:174 | appending a row with a new name adds exactly that name |
| Prefs.DeleteSensorSpec | preferences.py:191-210 | a failed delete changes neither the registry, the list nor the entry, and shows the message; a successful one drops the key from the registry and the list, and removes `{name}` from the entry |
| Prefs.DeleteKeepsOtherText | preferences.py:201-203 | an entry without the deleted placeholder is left as it was |
| Prefs.DeleteLeavesNestedPlaceholder | preferences.py:203 | the entry is cleaned in one pass: `{a{a}}` becomes `{a}` |
| Prefs.EditRefusesDefaults | preferences.py:119-127 | editing a default sensor's row shows "Can not edit the default sensors." and changes nothing |
| Prefs.EditSensorSpec | preferences.py:163-187 | with the corrected edit, an accepted dialog either changes nothing and says why, or leaves the registry as add or edit leaves it, with the new row last; the template entry is never touched |
| Prefs.AddKeepsMirror | preferences.py:168-174 | after an add, the list still shows each key of the registry once |
| Prefs.EditKeepsMirror | preferences.py:170-174 | after a corrected edit, the old row is replaced by the new one and the list still shows the registry |
| Prefs.Preferences.constructor | preferences.py:383-385 | the template entry starts with the registry's template |
| Prefs.Preferences.CheckTokens | preferences.py:358-365 | the token loop of update_parent, changing nothing |
| Prefs.Preferences.UpdateParent | preferences.py:352-381 | update_parent leaves the settings its specification gives; a failed check raises and moves nothing; a commit restarts the fetcher and then fetches the guide over the committed settings, which moves the gauges and may still raise |
| Prefs.SensorsListModel.constructor | preferences.py:40-46 | fill_liststore shows each key of the registry once, with its description |
| Prefs.SensorsListModel.DeleteSensor | preferences.py:191-210 | the delete handler leaves registry, rows and entry as its specification gives |
| Prefs.SensorsListModel.EditSensor | preferences.py:107-189 | the add/edit handler over the corrected edit leaves registry, rows and entry as its specification gives |
| Prefs.EditSensorAsWrittenKeepingName | preferences.py:170-174 | as written, accepting the Edit dialog of a custom sensor without changing its name deletes the sensor with no message while its row stays: the list no longer mirrors the registry |

## Left out

- GTK and Budgie widgets, menus, dialogs and tree views are not modelled.
  - The button's calls are recorded as events.
  - An error dialog is a `Feedback` value.
  - The dialog's answer is a parameter.
- I/O is not modelled: reading and writing the JSON settings files, the autostart file, and
  `save_settings`.
  - `load_settings` is modelled over the already-parsed configuration.
  - `Preferences.save_prefs` and `load_settings` in preferences.py refer to names that do not
    exist; that code is dead and left out.
- Machine readings are inputs, not modelled: psutil counters, `/proc` and `/sys` reads,
  `os.path.exists`, `statvfs`, nvidia-smi, `subprocess`, and `time.time()`. They arrive as the
  `Host` snapshot and the `now` parameter, with one clock reading per cycle.
- `CPUTemp`'s probing of the thermal zone and hwmon files is not modelled. It is best-effort
  hardware access with no checkable contract; its outcome is a field of `Host`.
- Threading is not modelled: the GLib timer, the extra run from `Thread.start()`, and
  `GLib.idle_add`. Only the alive/re-arm rule of a tick is modelled.
- The digit rendering of floats (`%3.2f`, `{:02.0f}`, `round()`) is not modelled. The renderings
  are functions in `Host`. Float arithmetic is exact real arithmetic.
- The float parse of the interval entry is a parameter (None when `float()` raises).
- A dictionary's iteration order is a parameter (`order`). The fetch loop does not depend on it;
  `update` and `fill_liststore` follow it.
- Regular expressions are not modelled in general. A key is a literal name, `prefix\d*` or
  `prefix.+`. Custom names are assumed to contain no other regular-expression syntax. `str.format`
  is modelled for plain keyword fields; any other field form is a format error.
- Indicator.IndicatorSysmonitor.constructor: a Dafny constructor cannot raise, so an exception
  from the guide fetch at the end of `__init__` is the Raised value of `initStatus`. In the
  program no indicator exists then; the model's object, with the state reached so far, stands
  for that partial state only.
- Prefs.Preferences.UpdateParent: `on_save` calls `save_settings` only when `update_parent`
  returns. `save_settings` writes the settings file, which is I/O and not modelled.
- `on_exit`, `on_test`, `on_save`, `on_cancel`, `_on_help`, autostart and the help text are UI
  wiring, and are not modelled. The validation they call is `update_parent`.
- `_on_add_sensor` is not modelled. It inserts `{name}` into the entry at the cursor, and only
  the widget sees that change.
- `SensorManager`'s singleton wrapper is not modelled: there is one `SensorManager` object and
  the indicator shares it.
- Sensors.Check and Patterns.Matches: `\d` is read as an ASCII digit. In Python a str pattern's
  `\d` also matches the other Unicode decimal digits, which `int()` accepts, so a token such as
  `cpu` followed by an Arabic-Indic three is claimed and checked by the program but not by the
  model. The `999` fallback for a token shorter than three characters cannot be reached, since
  no such token matches `cpu\d*`.
- Text.FirstDigits: only ASCII digits are found. In Python a str pattern's `\d` also matches
  the other Unicode decimal digits (sensors.py:53, 436-447), so a value holding such digits is
  read differently by the program.
- Text.ParseInt: only an optional sign followed by ASCII digits parses. Python's `int()` also
  accepts surrounding whitespace, underscores between digits and other Unicode decimal digits;
  the model gives ValueError for those texts.
- Text.Lower: only the ASCII letters are lowered. `str.lower()` also lowers the other Unicode
  letters; the markers the rewrite looks for are ASCII, but a value with upper-case non-ASCII
  text keeps it in the model.
- Text.Repr: only ASCII control characters are escaped. `repr()` also escapes the non-printable
  characters beyond ASCII (for example U+0085 or U+200B), which the model shows as they are; so
  Template.MissingSensorLabel differs from the program for a token holding one.
- Text.ReprQuote, Text.ReprPlain: hold in the model for any text beyond ASCII; `repr()` escapes
  the non-printable ones, so for a text holding one the program's quoted form differs.
- Template.MissingSensorLabel: the label is exact except for a token holding a non-printable
  character beyond ASCII, which `repr()` escapes and the model shows as it is (see Text.Repr).
- Registry.EditSpec: states the corrected edit. As written, an edit that keeps the name deletes
  the sensor (Registry.EditAsWrittenKeepingName), and the template is rewritten by substring.
- Registry.EditRenamesToken: states the corrected `{name}` rewrite. As written, the substring
  replace also rewrites inside other tokens (Registry.EditAsWrittenRewritesOtherTokens).
- Registry.SensorManager.Edit: runs the corrected edit; the code as written is
  Registry.EditAsWritten.
- Prefs.EditSensorSpec: states the handler over the corrected edit. As written, accepting the
  dialog with the name unchanged deletes the sensor and keeps its row
  (Prefs.EditSensorAsWrittenKeepingName).
- Prefs.EditKeepsMirror: holds for the corrected edit only; as written, an unchanged name breaks
  the mirror (Prefs.EditSensorAsWrittenKeepingName).
- Prefs.SensorsListModel.EditSensor: dispatches to the corrected edit, not to the edit the
  handler calls as written.
- Indicator.IndicatorSysmonitor.Update: runs the corrected rewrite. As written, a `clear_icon`
  value or a `use_icon` value with a colon raises AttributeError, no icon changes and no label is
  set (Indicator.ClearIconCycle, Indicator.UseIconCycle).
- Indicator.IndicatorSysmonitor.Run: hands the cycle to the corrected update, so a `clear_icon`
  or `use_icon:path` value keeps the timer armed; as written the exception detaches it
  (Indicator.ClearIconCycle, Indicator.UseIconCycle).

## Findings

| source | as written | input that shows it | evidently intended | confidence | as-written member | corrected member |
|---|---|---|---|---|---|---|
| sensors.py:161-162 | `custom_text.replace(name, newname)` replaces the name wherever it occurs as a substring | renaming custom sensor `m` to `n` turns the template `{mem}` into `{nen}`, a token of no sensor | only the `{name}` placeholders are renamed, so `{mem}` stays | not executed | Registry.EditAsWrittenRewritesOtherTokens | Registry.EditRenamesToken |
| sensors.py:159-160 | the entry is written under newname and then `del sensors[name]`, so when newname == name the sensor just written is deleted | accepting the Edit dialog of custom sensor `foo` with the name left as `foo` | the entry is updated in place and the list row stays in step with the registry | not executed | Prefs.EditSensorAsWrittenKeepingName | Prefs.EditKeepsMirror |
| budgiesysmonitor.py:137-146 | `self.ind.set_icon_full(...)` is called on a `Gtk.Button`, which has no `set_icon_full`, so the attribute lookup raises AttributeError (at line 146 before the never-assigned `self.tindicator` is read) | a custom sensor whose command prints `clear_icon` or `use_icon:p` | the marker's icon is set (or the indicator's own icon put back) and the text before the marker is shown | not executed | Indicator.ClearIconCycle | Indicator.ClearIconCycleCorrected |
