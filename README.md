# Riemann::Tools::Nut in Dafny

This project models `Riemann::Tools::Nut`, the Riemann tool that polls UPS
devices through the NUT client `upsc` and turns each device's readings into
health events. The model proves properties of that model. It covers five
parts of `lib/riemann/tools/nut.rb`:

- **The attribute parser** (`upsc_ups`) and **value normaliser**
  (`normalize`), in `upsc.dfy` and `values.dfy`, module `Upsc` and module
  `Values`. The output of `upsc` is split into lines with `String#lines`.
  Each line is chomped and matched against `\A([^:]+): (.*)\z`. Each value
  is stripped and normalised to `Int`, `Num` or `Text`, and a later
  duplicate key overwrites an earlier one. `ParseOutput` is the line loop
  itself, proved equal to the pure `ParseText`.
- **The six reports** (`report_battery_charge` … `report_ups_status`), in
  `reports.dfy`, module `Reports`. Each is a pure function from a device's
  attribute map to an `Outcome`: no event, one event, or an exception that
  escapes the method.
- **The per-tick cache** (`invalidate_cache`, `upsc`). It is the class
  `NutTool.Nut` in `nut.dfy`. Its field `cache` stands for
  `@cached_data[:upsc]`. `Upsc` fills the cache with a loop over the
  configured devices. A ghost field `queried` records which devices were
  asked. The field `cleared` records whether `@cached_data` is a Hash yet. A
  new tool has none, so every lookup raises NoMethodError until the first
  `invalidate_cache`.
- **The tick** (`tick`). `Tick` clears the cache and then runs each
  device's block (`ReportDevice`) in configuration order. The events go to
  the `log` field, which stands for the sink behind `report`. The result
  is the exception that ended the tick, if one did.

Some Ruby behaviour is stated explicitly:

- **Comparison** (`Values.Less`):
  - `nil < x` raises NoMethodError.
  - A number compared with nil or with a String raises ArgumentError.
  - Two Strings compare by code point.
- **`Float()` on nil** (`Values.ToFloat`) raises TypeError with the
  message "can't convert nil into Float".
- **Only TypeError is rescued** by the report methods. Every other
  exception ends the tick.
- **An empty Hash is truthy.** A device whose tool is missing gets an empty
  map, and the table still counts as cached.

`Integer()`, `Float()` and `Float#to_s` are the three function fields of
`Values.Kernel`. The model makes no assumption about their grammar or
formatting. Running `upsc <device>` is the `Query` parameter: it returns
the printed text, or `None` when the tool cannot be launched
(`Errno::ENOENT`). Numbers are `real`.

Some of the code's behaviour on missing or malformed readings is easy to
misread. The model follows the code:

- **A missing `battery.charge.low` or `battery.charge.warning` is not taken
  as 0.** Comparing a number with nil raises ArgumentError, which is not
  rescued (lines 90 and 92). See `Reports.MissingThresholdRaises`.
- **A missing `battery.charge` does not produce a critical report.** It
  raises NoMethodError (`nil < x`), which ends the tick. See
  `Reports.MissingChargeRaises` and `NutTool.EmptyDeviceStopsTick`.
- **A missing `ups.load` gives a critical event that does have a
  description:** the TypeError message (line 161). A load `Float()`
  rejects raises ArgumentError, which escapes instead of being reported.
- **A failing report does not let the tick go on.** The exception leaves
  `tick`, so later reports and devices are not run (`NutTool.DevicesRun`).

`Tick` is specified by `DevicesRun`: device after device, each running its
six reports, and stopping at the first exception. `TickRun` proves this
equal to running the flat list of all the tick's reports. `TickOrder`
proves that element `6 * i + j` of that list is metric `j` on device `i`.

## Model

| member | source | states |
|---|---|---|
| Values.Normalize | lib/riemann/tools/nut.rb:63-71 | `Int` exactly when the integer parse succeeds, with its value. Otherwise `Num` exactly when the float parse succeeds, with its value. Otherwise the input text unchanged. |
| Values.NormalizedTextIsNotFloat | lib/riemann/tools/nut.rb:63-71 | A value normalised to text is a string that both the integer parse and the float parse reject. |
| Values.Digits | lib/riemann/tools/nut.rb:80 | `Integer#to_s` as interpolated: a non-empty string of decimal digits with no leading zero, and exactly `"0"` for zero. |
| Values.DigitsRoundTrip | lib/riemann/tools/nut.rb:80 | Reading back the digits written for `n` gives `n`. |
| Values.Less | lib/riemann/tools/nut.rb:90-92 | `nil` on the left raises NoMethodError. Any other mix of nil, number and text raises ArgumentError. It succeeds exactly when both sides are present and are both numbers or both text. Numbers compare by value and text compares lexicographically. |
| Values.LexLessIrreflexive | lib/riemann/tools/nut.rb:90-92 | No string is less than itself, so an equal charge and threshold is not "below". |
| Values.ToFloat | lib/riemann/tools/nut.rb:149 | `Float(nil)` raises TypeError "can't convert nil into Float". A number converts to its value. Text goes through the float parse, and a rejection raises ArgumentError. |
| Upsc.Lines | lib/riemann/tools/nut.rb:51 | `String#lines`: the lines concatenate back to the text. No line is empty, a newline occurs only as a line's last character, and every line but the last ends in one. |
| Upsc.Chomp | lib/riemann/tools/nut.rb:52 | `chomp` removes exactly one trailing `"\n"`, `"\r"` or `"\r\n"` and keeps the rest as a prefix. It changes nothing exactly when the text does not end in `\n` or `\r`. |
| Upsc.ChompedLineHasNoNewline | lib/riemann/tools/nut.rb:51-52 | A chomped line of `lines` contains no newline. |
| Upsc.Strip | lib/riemann/tools/nut.rb:55 | `strip` gives a substring with only whitespace cut from either end, and it neither starts nor ends with whitespace. |
| Upsc.MatchLine | lib/riemann/tools/nut.rb:52-54 | A match yields groups that satisfy `\A([^:]+): (.*)\z`: a non-empty colon-free key, then `": "`, then a newline-free rest. |
| Upsc.MatchLineComplete | lib/riemann/tools/nut.rb:52-54 | Every line of that shape matches, and the groups are that key and that rest. |
| Upsc.ParseLineMatches | lib/riemann/tools/nut.rb:52-57 | A matching line yields the entry (key, normalised stripped rest). |
| Upsc.ParseLineSkips | lib/riemann/tools/nut.rb:52 | A line yields an entry only when its chomped text matches. |
| Upsc.CollectKeys | lib/riemann/tools/nut.rb:57 | A key is in the collected map exactly when some entry sets it. |
| Upsc.CollectLastWins | lib/riemann/tools/nut.rb:57 | The value of a key is the one from the last entry that sets it. |
| Upsc.AttributesKeys | lib/riemann/tools/nut.rb:50-60 | A key is in a device's map exactly when some line of the output sets it. |
| Upsc.AttributesLastWins | lib/riemann/tools/nut.rb:50-60 | The stored value is the one parsed from the last line that sets the key (`ParseLineMatches` gives that line's normalised, stripped rest). |
| Upsc.ParseOutput | lib/riemann/tools/nut.rb:47-61 | The loop that fills `data` line by line yields exactly `ParseText` of the output. |
| Reports.Lookup | lib/riemann/tools/nut.rb:78 | `data[key]` is present exactly when the key is, with its value. |
| Reports.ChargeState | lib/riemann/tools/nut.rb:89-97 | Critical iff charge < low. Warning iff not below low and charge < warning. Ok iff below neither. A failed comparison raises its own exception: the first if it fails, otherwise the second. |
| Reports.ChargeStateNumeric | lib/riemann/tools/nut.rb:89-97 | For numbers: critical iff charge < low, warning iff low <= charge < warning, ok iff charge is at least both. |
| Reports.ChargeStateMonotonic | lib/riemann/tools/nut.rb:89-97 | With numeric thresholds, a lower charge is never in a less severe state. |
| Reports.ReportBatteryCharge | lib/riemann/tools/nut.rb:73-87 | It never stays silent. It raises exactly when the state does. Otherwise it emits `"<device> battery charge"` in that state, with the stored charge as metric and `"<charge> %"` as description. |
| Reports.MissingChargeRaises | lib/riemann/tools/nut.rb:78-90 | Without `battery.charge` the report raises NoMethodError. |
| Reports.FullChargeIsOk | lib/riemann/tools/nut.rb:73-97 | A charge of 100 with both thresholds at most 100 is ok, with metric 100 and description `"100 %"`. |
| Reports.MissingThresholdRaises | lib/riemann/tools/nut.rb:90-92 | A numeric charge without a low threshold raises ArgumentError. Without a warning threshold it raises exactly when the charge is not below low. |
| Reports.OptionalVoltage | lib/riemann/tools/nut.rb:99-109 | Nothing when the key is absent. Otherwise one ok event with the value as metric and `"<v> V"`. It never raises. |
| Reports.ReportBatteryVoltage | lib/riemann/tools/nut.rb:99-109 | No event iff `battery.voltage` is absent. Otherwise `"<device> battery voltage"`, ok, the stored value and `"<v> V"`. It never raises. |
| Reports.ReportInputVoltage | lib/riemann/tools/nut.rb:118-128 | No event iff `input.voltage` is absent. Otherwise `"<device> input voltage"`, ok, the stored value and `"<v> V"`. It never raises. |
| Reports.ReportUpsAlarm | lib/riemann/tools/nut.rb:137-145 | No event iff `ups.alarm` is absent. Otherwise a critical `"<device> ups alarm"` with no metric and the alarm verbatim. |
| Reports.LoadState | lib/riemann/tools/nut.rb:165-173 | Critical iff load_critical > 0 and load > load_critical. Warning iff not critical and load_warning > 0 and load > load_warning. Ok with both thresholds at most 0, or with the load not above either. |
| Reports.ReportUpsLoad | lib/riemann/tools/nut.rb:147-163 | A missing load gives a critical event with no metric and the TypeError message. A number gives an event in `LoadState`, with metric and `"<load> W"`. Text goes through `Float()`: an event if parsed, ArgumentError otherwise. |
| Reports.NormalizedTextLoadRaises | lib/riemann/tools/nut.rb:149 | A load that `normalize` kept as text always raises ArgumentError. |
| Reports.StatusState | lib/riemann/tools/nut.rb:177-181 | Critical iff some word is ALARM or OVER, or no recognised word. Warning iff no critical word and some OB, DISCHRG or BYPASS. Ok iff only OL of the three groups is present. |
| Reports.TokenIsWord | lib/riemann/tools/nut.rb:177-179 | A space-delimited token that starts and ends with a word character matches `\b(token)\b`. `HasWord` places `\b` where exactly one neighbouring character is a word character. |
| Reports.AlarmWinsOverOnline | lib/riemann/tools/nut.rb:177-181 | `"ALARM OL RB"` is critical. |
| Reports.ReportUpsStatus | lib/riemann/tools/nut.rb:175-188 | A `"<device> ups status"` event with no metric, described by the raw status. Critical when the status is absent, otherwise `StatusState`. A non-text status raises NoMethodError. |
| Reports.Evaluate | lib/riemann/tools/nut.rb:73-188 | Each event's service is `"<device> <metric name>"`. Only charge, the voltages and load carry a metric. Only the voltages and alarm can stay silent. Only charge, load and status can raise. |
| NutTool.TablePrefixContents | lib/riemann/tools/nut.rb:38-42 | After the first `n` devices, the table holds exactly those devices, each with its own query's attributes. |
| NutTool.BuildTable | lib/riemann/tools/nut.rb:36-44 | The filled table's keys are exactly the configured devices. Each maps to the parse of its own query, or to the empty map when the tool is missing. |
| NutTool.MissingToolGivesEmptyMap | lib/riemann/tools/nut.rb:40-41 | A device whose tool is missing maps to the empty map. |
| NutTool.StepsAppend | lib/riemann/tools/nut.rb:19-26 | Running two groups of reports in turn keeps the first's events and stops at its exception, or goes on with the second. |
| NutTool.StepsSnoc | lib/riemann/tools/nut.rb:19-26 | One more report adds its event or ends the run with its exception. |
| NutTool.StepsEventsEmitted | lib/riemann/tools/nut.rb:19-26 | Every event of a run was emitted by one of its reports. |
| NutTool.DeviceOrder | lib/riemann/tools/nut.rb:20-25 | The block's order: charge, battery voltage, input voltage, alarm, load, status. |
| NutTool.TickOrder | lib/riemann/tools/nut.rb:19-26 | A tick has `6 * |devices|` reports, and report `6 * i + j` is metric `j` on device `i`'s map. |
| NutTool.TickLength | lib/riemann/tools/nut.rb:19-26 | A tick has six reports per device. |
| NutTool.TickServices | lib/riemann/tools/nut.rb:74-184 | Every event of a tick is named `"<configured device> <metric name>"`. |
| NutTool.EmptyDeviceStopsTick | lib/riemann/tools/nut.rb:16-27 | A device with an empty map ends the tick with NoMethodError after the earlier devices' events, unless an earlier device already raised. |
| NutTool.EmptyMapRaisesFirst | lib/riemann/tools/nut.rb:20 | The first report of a device with no attributes raises NoMethodError. |
| NutTool.MetricsRunStops | lib/riemann/tools/nut.rb:20-25 | After a report raises, the device's later reports change nothing. |
| NutTool.MetricsRunFlat | lib/riemann/tools/nut.rb:20-25 | Running the first `n` reports one by one is the run of the first `n` outcomes. |
| NutTool.DeviceRunSteps | lib/riemann/tools/nut.rb:20-25 | A device's block is the run of its six outcomes. |
| NutTool.DevicesRunStops | lib/riemann/tools/nut.rb:19-26 | After a device raises, later devices change nothing. |
| NutTool.DevicesRunFlat | lib/riemann/tools/nut.rb:19-26 | Running the first `n` devices is running their report groups as one list. |
| NutTool.TickRun | lib/riemann/tools/nut.rb:16-27 | The device-by-device tick equals the run of all its reports in order. |
| NutTool.Nut.constructor | lib/riemann/tools/nut.rb:12-14 | The tool starts with its devices and thresholds and an empty log. `@cached_data` is not yet a Hash (`cleared` is false), so lookups raise until the first `invalidate_cache`. |
| NutTool.Nut.InvalidateCache | lib/riemann/tools/nut.rb:29-31 | `@cached_data` becomes an empty Hash: a lookup is possible, no table is cached, and the log is unchanged. |
| NutTool.Nut.Upsc | lib/riemann/tools/nut.rb:33-45 | Before the first `invalidate_cache` it raises NoMethodError and changes nothing. A cached table, even an empty one, is returned with no query. Otherwise each device is queried once in configuration order, and the `BuildTable` result is cached and returned. |
| NutTool.Nut.Report | lib/riemann/tools/nut.rb:73-188 | Before the first `invalidate_cache` it raises NoMethodError and changes nothing. Otherwise one report through the cache: the log grows by its event, and its exception is returned. The cache is filled on first use and otherwise unchanged. |
| NutTool.Nut.ReportDevice | lib/riemann/tools/nut.rb:20-25 | Before the first `invalidate_cache` it raises NoMethodError from the first report and changes nothing. Otherwise the device's six reports in order through the cache. The log grows by the block's events, and the exception that ended it is returned. |
| NutTool.Nut.Tick | lib/riemann/tools/nut.rb:16-27 | The cache is cleared, then every device is queried exactly once. The log grows by the events of `DevicesRun` on the freshly built table, and its exception is returned. With no devices configured, the cache stays empty. |

## Left out

- Running `upsc` (`Open3.capture2`, line 48) is the `Query` parameter. Its exit status is ignored by the code and not modelled. Any failure other than a missing tool is not modelled either.
- The grammar of Ruby's `Integer()` and `Float()` (prefixes, underscores, exponents, `"08"`) is abstract. So is `Float#to_s`, for example `"12.0 W"`. All three are fields of `Values.Kernel`.
- Floating-point behaviour: numbers are `real`.
- The rescues at lines 82 and 110-115 / 129-134 are not modelled. No path reaches them with a normalised value: the voltage reports only interpolate, and the charge comparison raises NoMethodError or ArgumentError, not TypeError.
- The option declarations (lines 12-14), the `report` transport and the scheduling of ticks belong to the Riemann::Tools harness. `report` is an append to `log`, and the options are constructor arguments.
- Reports.ReportUpsStatus: a numeric `ups.status` raises NoMethodError, as in Ruby 3.2 and later. Older Ruby returned nil from `Object#=~`, which made the state critical; that behaviour is not modelled.
- Reports.StatusState: word boundaries use ASCII `\w`. Ruby's `\b` on non-ASCII letters is not modelled.
- NutTool.Nut.Upsc: an exception other than a missing tool leaves a half-filled cache in Ruby. The model has no such exception, because `Query` only returns text or `None`. Output that is not valid in its encoding, which makes the match at line 52 raise ArgumentError, is also not modelled: text here is a sequence of characters.
- NutTool.Nut.ReportDevice: the six calls of the block are a loop over `Metrics`, in the block's order with the same early exit.
