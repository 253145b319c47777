/**
 * The six reports of one device (lib/riemann/tools/nut.rb:73-188), each a
 * pure decision over the device's attribute map: no event, one event, or an
 * exception that the method does not rescue.
 */
module Reports {
  import opened Wrappers
  import opened Values

  datatype State = Ok | Warning | Critical

  /** An event as handed to `report`; a missing metric or description is an absent (nil) field. */
  datatype Event = Event(service: string, state: State, metric: Option<Value>, description: Option<Value>)

  /** What one report does: nothing, one event, or an exception escaping the method. */
  datatype Outcome = NoEvent | Emit(event: Event) | Error(exception: Exception)

  /** The two operator thresholds `--load-warning` and `--load-critical`. */
  datatype Thresholds = Thresholds(loadWarning: real, loadCritical: real)

  /** The six reports, in the order `tick` runs them. */
  datatype Metric = BatteryCharge | BatteryVoltage | InputVoltage | UpsAlarm | UpsLoad | UpsStatus

  const Metrics: seq<Metric> := [BatteryCharge, BatteryVoltage, InputVoltage, UpsAlarm, UpsLoad, UpsStatus]

  /** The metric part of each report's service name. */
  function MetricName(m: Metric): string
  {
    match m
    case BatteryCharge => "battery charge"
    case BatteryVoltage => "battery voltage"
    case InputVoltage => "input voltage"
    case UpsAlarm => "ups alarm"
    case UpsLoad => "ups load"
    case UpsStatus => "ups status"
  }

  /** The service of an event: `"<device> <metric name>"`. */
  function Service(ups: string, m: Metric): string
  {
    ups + " " + MetricName(m)
  }

  /** `data[key]`: nil (None) when the device does not report the attribute. */
  function Lookup(data: map<string, Value>, key: string): (r: Option<Value>)
    ensures r.Some? <==> key in data
    ensures r.Some? ==> r.value == data[key]
  {
    if key in data then Some(data[key]) else None
  }

  /** The interpolation `"#{v}"`, with nil writing nothing. */
  function Interpolate(k: Kernel, v: Option<Value>): string
  {
    match v
    case None => ""
    case Some(x) => ToS(k, x)
  }

  /**
   * `battery_charge_state`: critical below the low threshold, else warning
   * below the warning threshold, else ok. The warning threshold is read only
   * when the charge is not below the low one, and a failed comparison's
   * exception is the result.
   */
  function ChargeState(charge: Option<Value>, low: Option<Value>, warning: Option<Value>): (r: Result<State, Exception>)
    ensures Less(charge, low).Failure? ==> r == Failure(Less(charge, low).error)
    ensures Less(charge, low) == Success(false) && Less(charge, warning).Failure? ==> r == Failure(Less(charge, warning).error)
    ensures r == Success(Critical) <==> Less(charge, low) == Success(true)
    ensures r == Success(Warning) <==> Less(charge, low) == Success(false) && Less(charge, warning) == Success(true)
    ensures r == Success(Ok) <==> Less(charge, low) == Success(false) && Less(charge, warning) == Success(false)
  {
    match Less(charge, low)
    case Failure(e) => Failure(e)
    case Success(true) => Success(Critical)
    case Success(false) =>
      match Less(charge, warning)
      case Failure(e) => Failure(e)
      case Success(true) => Success(Warning)
      case Success(false) => Success(Ok)
  }

  /** The numeric reading of charge classification, for numbers on all three attributes. */
  lemma ChargeStateNumeric(c: Value, l: Value, w: Value)
    requires !c.Text? && !l.Text? && !w.Text?
    ensures ChargeState(Some(c), Some(l), Some(w)).Success?
    ensures ChargeState(Some(c), Some(l), Some(w)).value == Critical <==> AsReal(c) < AsReal(l)
    ensures ChargeState(Some(c), Some(l), Some(w)).value == Warning <==> AsReal(l) <= AsReal(c) < AsReal(w)
    ensures ChargeState(Some(c), Some(l), Some(w)).value == Ok <==> AsReal(l) <= AsReal(c) && AsReal(w) <= AsReal(c)
  {
  }

  /** Severity order: ok < warning < critical. */
  function Severity(s: State): nat
  {
    match s
    case Ok => 0
    case Warning => 1
    case Critical => 2
  }

  /** For numeric thresholds, a lower charge is never reported as less severe. */
  lemma ChargeStateMonotonic(c1: Value, c2: Value, l: Value, w: Value)
    requires !c1.Text? && !c2.Text? && !l.Text? && !w.Text?
    requires AsReal(c1) <= AsReal(c2)
    ensures Severity(ChargeState(Some(c1), Some(l), Some(w)).value) >= Severity(ChargeState(Some(c2), Some(l), Some(w)).value)
  {
    ChargeStateNumeric(c1, l, w);
    ChargeStateNumeric(c2, l, w);
  }

  /**
   * `report_battery_charge`: an event with the stored charge as metric and
   * `"<charge> %"` as description, in the state `battery_charge_state`
   * gives; a failed comparison escapes, since only TypeError is rescued.
   */
  function ReportBatteryCharge(k: Kernel, ups: string, data: map<string, Value>): (o: Outcome)
    ensures !o.NoEvent?
    ensures var st := ChargeState(Lookup(data, "battery.charge"), Lookup(data, "battery.charge.low"), Lookup(data, "battery.charge.warning"));
      (o.Error? <==> st.Failure?) && (o.Error? ==> o.exception == st.error)
      && (o.Emit? ==> o.event.state == st.value)
    ensures o.Emit? ==> (o.event.service == Service(ups, BatteryCharge)
      && "battery.charge" in data
      && o.event.metric == Some(data["battery.charge"])
      && o.event.description == Some(Text(ToS(k, data["battery.charge"]) + " %")))
  {
    var charge := Lookup(data, "battery.charge");
    match ChargeState(charge, Lookup(data, "battery.charge.low"), Lookup(data, "battery.charge.warning"))
    case Failure(e) => Error(e)
    case Success(st) => Emit(Event(Service(ups, BatteryCharge), st, charge, Some(Text(Interpolate(k, charge) + " %"))))
  }

  /** A device without a charge reading makes the charge report raise NoMethodError (`nil < x`). */
  lemma MissingChargeRaises(k: Kernel, ups: string, data: map<string, Value>)
    requires "battery.charge" !in data
    ensures ReportBatteryCharge(k, ups, data) == Error(NoMethodError)
  {
  }

  /** A full battery above both thresholds is ok, with the metric 100 and the description `"100 %"`. */
  lemma FullChargeIsOk(k: Kernel, ups: string, low: int, warning: int)
    requires low <= 100 && warning <= 100
    ensures var data := map["battery.charge" := Int(100), "battery.charge.low" := Int(low), "battery.charge.warning" := Int(warning)];
      ReportBatteryCharge(k, ups, data) == Emit(Event(Service(ups, BatteryCharge), Ok, Some(Int(100)), Some(Text("100 %"))))
  {
    var data := map["battery.charge" := Int(100), "battery.charge.low" := Int(low), "battery.charge.warning" := Int(warning)];
    assert Lookup(data, "battery.charge") == Some(Int(100));
    assert Lookup(data, "battery.charge.low") == Some(Int(low));
    assert Lookup(data, "battery.charge.warning") == Some(Int(warning));
    ChargeStateNumeric(Int(100), Int(low), Int(warning));
    assert Digits(10) == Digits(1) + ['0'];
    assert Digits(100) == Digits(10) + ['0'];
    assert Interpolate(k, Some(Int(100))) + " %" == "100 %";
  }

  /**
   * A missing low threshold is not taken as 0: a numeric charge compared
   * with nil raises ArgumentError. A missing warning threshold is only
   * compared when the charge is not below the low threshold.
   */
  lemma MissingThresholdRaises(k: Kernel, ups: string, data: map<string, Value>)
    requires "battery.charge" in data && !data["battery.charge"].Text?
    ensures "battery.charge.low" !in data ==> ReportBatteryCharge(k, ups, data) == Error(ArgumentError)
    ensures "battery.charge.low" in data && !data["battery.charge.low"].Text? && "battery.charge.warning" !in data ==>
      (ReportBatteryCharge(k, ups, data).Error? <==> AsReal(data["battery.charge.low"]) <= AsReal(data["battery.charge"]))
  {
  }

  /** The shared shape of the two voltage reports: nothing without the key, else an ok event. */
  function OptionalVoltage(k: Kernel, service: string, data: map<string, Value>, key: string): (o: Outcome)
    ensures !o.Error?
    ensures o.NoEvent? <==> key !in data
    ensures o.Emit? ==> o.event == Event(service, Ok, Some(data[key]), Some(Text(ToS(k, data[key]) + " V")))
  {
    match Lookup(data, key)
    case None => NoEvent
    case Some(v) => Emit(Event(service, Ok, Some(v), Some(Text(ToS(k, v) + " V"))))
  }

  /** `report_battery_voltage`: skipped when the device has no battery voltage, else ok with `"<v> V"`. */
  function ReportBatteryVoltage(k: Kernel, ups: string, data: map<string, Value>): (o: Outcome)
    ensures !o.Error?
    ensures o.NoEvent? <==> "battery.voltage" !in data
    ensures o.Emit? ==> (o.event.service == Service(ups, BatteryVoltage) && o.event.state == Ok
      && o.event.metric == Some(data["battery.voltage"])
      && o.event.description == Some(Text(ToS(k, data["battery.voltage"]) + " V")))
  {
    OptionalVoltage(k, Service(ups, BatteryVoltage), data, "battery.voltage")
  }

  /** `report_input_voltage`: skipped when the device has no input voltage, else ok with `"<v> V"`. */
  function ReportInputVoltage(k: Kernel, ups: string, data: map<string, Value>): (o: Outcome)
    ensures !o.Error?
    ensures o.NoEvent? <==> "input.voltage" !in data
    ensures o.Emit? ==> (o.event.service == Service(ups, InputVoltage) && o.event.state == Ok
      && o.event.metric == Some(data["input.voltage"])
      && o.event.description == Some(Text(ToS(k, data["input.voltage"]) + " V")))
  {
    OptionalVoltage(k, Service(ups, InputVoltage), data, "input.voltage")
  }

  /** `report_ups_alarm`: skipped without an alarm, else critical with the alarm verbatim and no metric. */
  function ReportUpsAlarm(ups: string, data: map<string, Value>): (o: Outcome)
    ensures !o.Error?
    ensures o.NoEvent? <==> "ups.alarm" !in data
    ensures o.Emit? ==> (o.event.service == Service(ups, UpsAlarm) && o.event.state == Critical
      && o.event.metric.None? && o.event.description == Some(data["ups.alarm"]))
  {
    match Lookup(data, "ups.alarm")
    case None => NoEvent
    case Some(alarm) => Emit(Event(Service(ups, UpsAlarm), Critical, None, Some(alarm)))
  }

  /**
   * `ups_load_state`: a threshold is enabled only when positive and is
   * crossed only by a strictly greater load; critical is tried first.
   */
  function LoadState(load: real, t: Thresholds): (r: State)
    ensures r == Critical <==> t.loadCritical > 0.0 && load > t.loadCritical
    ensures r == Warning <==> !(t.loadCritical > 0.0 && load > t.loadCritical) && t.loadWarning > 0.0 && load > t.loadWarning
    ensures t.loadWarning <= 0.0 && t.loadCritical <= 0.0 ==> r == Ok
    ensures load <= t.loadWarning && load <= t.loadCritical ==> r == Ok
  {
    if t.loadCritical > 0.0 && load > t.loadCritical then Critical
    else if t.loadWarning > 0.0 && load > t.loadWarning then Warning
    else Ok
  }

  /**
   * `report_ups_load`: `Float()` of the stored load. A number gives an event
   * with that metric and `"<load> W"`; a missing load is the one TypeError,
   * rescued into a critical event carrying its message; text `Float()`
   * rejects raises ArgumentError, which escapes.
   */
  function ReportUpsLoad(k: Kernel, t: Thresholds, ups: string, data: map<string, Value>): (o: Outcome)
    ensures !o.NoEvent?
    ensures "ups.load" !in data ==>
      o == Emit(Event(Service(ups, UpsLoad), Critical, None, Some(Text("can't convert nil into Float"))))
    ensures "ups.load" in data && !data["ups.load"].Text? ==>
      var load := AsReal(data["ups.load"]);
      o == Emit(Event(Service(ups, UpsLoad), LoadState(load, t), Some(Num(load)), Some(Text(k.floatToS(load) + " W"))))
    ensures "ups.load" in data && data["ups.load"].Text? ==>
      match k.float(data["ups.load"].s)
      case None => o == Error(ArgumentError)
      case Some(load) => o == Emit(Event(Service(ups, UpsLoad), LoadState(load, t), Some(Num(load)), Some(Text(k.floatToS(load) + " W"))))
  {
    var service := Service(ups, UpsLoad);
    match ToFloat(k, Lookup(data, "ups.load"))
    case Success(load) => Emit(Event(service, LoadState(load, t), Some(Num(load)), Some(Text(k.floatToS(load) + " W"))))
    case Failure(e) =>
      if e.TypeError? then Emit(Event(service, Critical, None, Some(Text(e.message))))
      else Error(e)
  }

  /** A load stored by `normalize` as text is one `Float()` rejects, so it always escapes. */
  lemma NormalizedTextLoadRaises(k: Kernel, t: Thresholds, ups: string, data: map<string, Value>, raw: string)
    requires "ups.load" in data && data["ups.load"] == Normalize(k, raw) && data["ups.load"].Text?
    ensures ReportUpsLoad(k, t, ups, data) == Error(ArgumentError)
  {
    NormalizedTextIsNotFloat(k, raw);
  }

  /** Characters matched by `\w`: ASCII letters, digits and underscore. */
  predicate IsWordChar(c: char)
  {
    ('a' <= c <= 'z') || ('A' <= c <= 'Z') || ('0' <= c <= '9') || c == '_'
  }

  /** `\b` at position p of s: exactly one of the characters either side of p is a word character. */
  predicate Boundary(s: string, p: nat)
    requires p <= |s|
  {
    (p > 0 && IsWordChar(s[p - 1])) != (p < |s| && IsWordChar(s[p]))
  }

  /** `\b(w)\b` matches at position i of s: w occurs there with a word boundary at both ends. */
  predicate WordAt(s: string, w: string, i: nat)
  {
    i + |w| <= |s| && s[i..i + |w|] == w && Boundary(s, i) && Boundary(s, i + |w|)
  }

  /** `s =~ /\b(w)\b/`: some position holds an occurrence of w with a word boundary at both ends. */
  predicate HasWord(s: string, w: string)
  {
    exists i: nat | i + |w| <= |s| :: WordAt(s, w, i)
  }

  predicate CriticalWord(s: string)
  {
    HasWord(s, "ALARM") || HasWord(s, "OVER")
  }

  predicate WarningWord(s: string)
  {
    HasWord(s, "OB") || HasWord(s, "DISCHRG") || HasWord(s, "BYPASS")
  }

  /**
   * The state of a status text: the three successive assignments of
   * `report_ups_status` and its `||= 'critical'`. Alarm and overload words
   * win over battery words, which win over on-line; nothing recognised is
   * critical.
   */
  function StatusState(s: string): (r: State)
    ensures r == Critical <==> CriticalWord(s) || (!WarningWord(s) && !HasWord(s, "OL"))
    ensures r == Warning <==> !CriticalWord(s) && WarningWord(s)
    ensures r == Ok <==> !CriticalWord(s) && !WarningWord(s) && HasWord(s, "OL")
  {
    var online := if HasWord(s, "OL") then Some(Ok) else None;
    var onBattery := if WarningWord(s) then Some(Warning) else online;
    var alarmed := if CriticalWord(s) then Some(Critical) else onBattery;
    alarmed.GetOr(Critical)
  }

  /** A space-separated token that starts and ends with a word character is matched as a word. */
  lemma TokenIsWord(before: string, w: string, after: string)
    requires w != [] && IsWordChar(w[0]) && IsWordChar(w[|w| - 1])
    requires before == [] || before[|before| - 1] == ' '
    requires after == [] || after[0] == ' '
    ensures HasWord(before + w + after, w)
  {
    var s := before + w + after;
    assert s[|before|..|before| + |w|] == w;
    assert WordAt(s, w, |before|);
  }

  /** `"ALARM OL RB"` is critical although it also says on-line. */
  lemma AlarmWinsOverOnline()
    ensures StatusState("ALARM OL RB") == Critical
  {
    TokenIsWord([], "ALARM", " OL RB");
    assert [] + "ALARM" + " OL RB" == "ALARM OL RB";
  }

  /** `report_ups_status`: an event in the status's state with the raw status as description. */
  function ReportUpsStatus(ups: string, data: map<string, Value>): (o: Outcome)
    ensures !o.NoEvent?
    ensures o.Error? <==> "ups.status" in data && !data["ups.status"].Text?
    ensures o.Error? ==> o.exception == NoMethodError
    ensures o.Emit? ==> (o.event.service == Service(ups, UpsStatus) && o.event.metric.None?
      && o.event.description == Lookup(data, "ups.status"))
    ensures o.Emit? && "ups.status" !in data ==> o.event.state == Critical
    ensures o.Emit? && "ups.status" in data ==> o.event.state == StatusState(data["ups.status"].s)
  {
    var service := Service(ups, UpsStatus);
    match Lookup(data, "ups.status")
    case None => Emit(Event(service, Critical, None, None))
    case Some(Text(s)) => Emit(Event(service, StatusState(s), None, Some(Text(s))))
    case Some(_) => Error(NoMethodError)
  }

  /**
   * The report for metric `m`. Its service is `"<device> <metric name>"`;
   * only charge, voltages and load carry a metric; only the optional
   * voltages and alarm can stay silent; only charge, load and status can raise.
   */
  function Evaluate(k: Kernel, t: Thresholds, m: Metric, ups: string, data: map<string, Value>): (o: Outcome)
    ensures o.Emit? ==> o.event.service == Service(ups, m)
    ensures o.Emit? && o.event.metric.Some? ==> m in {BatteryCharge, BatteryVoltage, InputVoltage, UpsLoad}
    ensures o.NoEvent? ==> m in {BatteryVoltage, InputVoltage, UpsAlarm}
    ensures o.Error? ==> m in {BatteryCharge, UpsLoad, UpsStatus}
  {
    match m
    case BatteryCharge => ReportBatteryCharge(k, ups, data)
    case BatteryVoltage => ReportBatteryVoltage(k, ups, data)
    case InputVoltage => ReportInputVoltage(k, ups, data)
    case UpsAlarm => ReportUpsAlarm(ups, data)
    case UpsLoad => ReportUpsLoad(k, t, ups, data)
    case UpsStatus => ReportUpsStatus(ups, data)
  }
}
