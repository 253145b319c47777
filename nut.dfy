/**
 * The poller itself (lib/riemann/tools/nut.rb:16-45): a per-tick cache of
 * every configured device's attribute map, filled on first use, and the tick
 * that clears it and runs the six reports for each device, appending the
 * events to the sink's log.
 */
module NutTool {
  import opened Wrappers
  import opened Values
  import opened Upsc
  import opened Reports

  /** What running `upsc <device>` gives: its output, or None when the tool is missing (Errno::ENOENT). */
  type Query = string -> Option<string>

  /** The cached table: device to attribute map. */
  type Table = map<string, map<string, Value>>

  /** The attribute map of one device from its query response; a missing tool gives no attributes. */
  function DeviceAttributes(k: Kernel, response: Option<string>): map<string, Value>
  {
    match response
    case None => map[]
    case Some(output) => ParseText(k, output)
  }

  /** The table after the fill loop of `upsc` has queried the first `n` devices. */
  function TablePrefix(k: Kernel, devices: seq<string>, query: Query, n: nat): Table
    requires n <= |devices|
  {
    if n == 0 then map[]
    else TablePrefix(k, devices, query, n - 1)[devices[n - 1] := DeviceAttributes(k, query(devices[n - 1]))]
  }

  lemma {:induction false} TablePrefixContents(k: Kernel, devices: seq<string>, query: Query, n: nat)
    requires n <= |devices|
    ensures forall d :: d in TablePrefix(k, devices, query, n) <==> d in devices[..n]
    ensures forall d :: d in devices[..n] ==> TablePrefix(k, devices, query, n)[d] == DeviceAttributes(k, query(d))
  {
    if n > 0 {
      TablePrefixContents(k, devices, query, n - 1);
      assert devices[..n] == devices[..n - 1] + [devices[n - 1]];
    }
  }

  /**
   * The table the fill loop of `upsc` builds: every configured device maps
   * to the attributes of its own query response, and nothing else is in it.
   */
  function BuildTable(k: Kernel, devices: seq<string>, query: Query): (t: Table)
    ensures forall d :: d in t <==> d in devices
    ensures forall d :: d in devices ==> t[d] == DeviceAttributes(k, query(d))
  {
    TablePrefixContents(k, devices, query, |devices|);
    assert devices[..|devices|] == devices;
    TablePrefix(k, devices, query, |devices|)
  }

  /** Extending a prefix by its next element. */
  lemma AppendNext<T>(q: seq<T>, s: seq<T>, i: nat)
    requires i < |s|
    ensures q + s[..i] + [s[i]] == q + s[..i + 1]
  {
    assert s[..i + 1] == s[..i] + [s[i]];
  }

  lemma AppendAssoc<T>(a: seq<T>, b: seq<T>, c: seq<T>)
    ensures a + b + c == a + (b + c)
  {
  }

  lemma Whole<T>(s: seq<T>)
    ensures s[..|s|] == s
  {
  }

  /** A device whose query finds no tool has an empty map in the table. */
  lemma MissingToolGivesEmptyMap(k: Kernel, devices: seq<string>, query: Query, d: string)
    requires d in devices && query(d).None?
    ensures BuildTable(k, devices, query)[d] == map[]
  {
  }

  /** The events up to the first exception, and that exception if one escapes. */
  datatype Run = Run(events: seq<Event>, error: Option<Exception>)

  function Emitted(o: Outcome): seq<Event>
  {
    if o.Emit? then [o.event] else []
  }

  function Raised(o: Outcome): Option<Exception>
  {
    if o.Error? then Some(o.exception) else None
  }

  /** Running reports in order: each one's event is sent; the first exception ends the run. */
  function Steps(os: seq<Outcome>): Run
  {
    if os == [] then Run([], None)
    else
      match os[0]
      case Error(e) => Run([], Some(e))
      case NoEvent => Steps(os[1..])
      case Emit(ev) => var r := Steps(os[1..]); Run([ev] + r.events, r.error)
  }

  /** Running two groups of reports one after the other. */
  lemma {:induction false} StepsAppend(a: seq<Outcome>, b: seq<Outcome>)
    ensures Steps(a).error.Some? ==> Steps(a + b) == Steps(a)
    ensures Steps(a).error.None? ==> Steps(a + b) == Run(Steps(a).events + Steps(b).events, Steps(b).error)
    decreases |a|
  {
    if a == [] {
      assert a + b == b;
    } else {
      assert (a + b)[1..] == a[1..] + b;
      StepsAppend(a[1..], b);
      if a[0].Emit? && Steps(a).error.None? {
        assert [a[0].event] + (Steps(a[1..]).events + Steps(b).events) == ([a[0].event] + Steps(a[1..]).events) + Steps(b).events;
      }
    }
  }

  /** One more report after a run without exception adds its event or ends with its exception. */
  lemma StepsSnoc(a: seq<Outcome>, o: Outcome)
    requires Steps(a).error.None?
    ensures Steps(a + [o]) == Run(Steps(a).events + Emitted(o), Raised(o))
  {
    StepsAppend(a, [o]);
    assert [o][1..] == [];
  }

  /** Every event of a run is the event of one of its reports. */
  lemma {:induction false} StepsEventsEmitted(os: seq<Outcome>, e: Event)
    requires e in Steps(os).events
    ensures exists n :: 0 <= n < |os| && os[n] == Emit(e)
    decreases |os|
  {
    if os[0] != Emit(e) {
      StepsEventsEmitted(os[1..], e);
      var n :| 0 <= n < |os[1..]| && os[1..][n] == Emit(e);
      assert os[n + 1] == Emit(e);
    }
  }

  /** The `report_*` methods of a configured tool: the outcome of one metric on one device's map. */
  type Reporter = (Metric, string, map<string, Value>) -> Outcome

  /** The reporter a tool has once its parser kernel and load thresholds are fixed. */
  function ReportMethods(k: Kernel, t: Thresholds): (ev: Reporter)
    ensures forall m, ups, data :: ev(m, ups, data) == Evaluate(k, t, m, ups, data)
  {
    (m, ups, data) => Evaluate(k, t, m, ups, data)
  }

  /** The six reports of one device, in the order `tick` runs them. */
  function DeviceOutcomes(ev: Reporter, ups: string, data: map<string, Value>): (os: seq<Outcome>)
    ensures |os| == |Metrics|
    ensures forall j :: 0 <= j < |Metrics| ==> os[j] == ev(Metrics[j], ups, data)
  {
    seq(|Metrics|, j requires 0 <= j < |Metrics| => ev(Metrics[j], ups, data))
  }

  /** The order of the block in `tick`: charge, battery voltage, input voltage, alarm, load, status. */
  lemma DeviceOrder(k: Kernel, t: Thresholds, ups: string, data: map<string, Value>)
    ensures DeviceOutcomes(ReportMethods(k, t), ups, data) ==
      [ ReportBatteryCharge(k, ups, data), ReportBatteryVoltage(k, ups, data), ReportInputVoltage(k, ups, data),
        ReportUpsAlarm(ups, data), ReportUpsLoad(k, t, ups, data), ReportUpsStatus(ups, data) ]
  {
  }

  /** The outcomes of several groups of reports, one group after the other. */
  function Concat(gs: seq<seq<Outcome>>): seq<Outcome>
  {
    if gs == [] then [] else Concat(gs[..|gs| - 1]) + gs[|gs| - 1]
  }

  /** With groups of six, element `j` of group `i` is element `6 * i + j` of the whole. */
  lemma {:induction false} ConcatIndex(gs: seq<seq<Outcome>>, i: nat, j: nat)
    requires forall g :: g in gs ==> |g| == 6
    requires i < |gs| && j < 6
    ensures |Concat(gs)| == 6 * |gs|
    ensures Concat(gs)[6 * i + j] == gs[i][j]
    decreases |gs|
  {
    var init := gs[..|gs| - 1];
    if i < |init| {
      assert init[i] == gs[i];
      ConcatIndex(init, i, j);
    } else if init != [] {
      ConcatIndex(init, 0, 0);
    }
  }

  lemma {:induction false} ConcatLength(gs: seq<seq<Outcome>>)
    requires forall g :: g in gs ==> |g| == 6
    ensures |Concat(gs)| == 6 * |gs|
    decreases |gs|
  {
    if gs != [] {
      var init := gs[..|gs| - 1];
      assert forall g :: g in init ==> g in gs;
      ConcatLength(init);
    }
  }

  /** The report groups of a tick: the six reports of each device, in configuration order. */
  function ReportGroups(ev: Reporter, devices: seq<string>, table: Table): (gs: seq<seq<Outcome>>)
    requires forall d :: d in devices ==> d in table
    ensures |gs| == |devices|
    ensures forall i :: 0 <= i < |devices| ==> gs[i] == DeviceOutcomes(ev, devices[i], table[devices[i]])
  {
    seq(|devices|, i requires 0 <= i < |devices| => DeviceOutcomes(ev, devices[i], table[devices[i]]))
  }

  /** All reports of a tick, device after device in configuration order. */
  function TickOutcomes(ev: Reporter, devices: seq<string>, table: Table): seq<Outcome>
    requires forall d :: d in devices ==> d in table
  {
    Concat(ReportGroups(ev, devices, table))
  }

  /**
   * The fixed order: report `j` of device `i` is the `6 * i + j`-th report
   * of the tick, and it is metric `j` evaluated on device `i`'s own map.
   */
  lemma TickOrder(ev: Reporter, devices: seq<string>, table: Table, i: nat, j: nat)
    requires forall d :: d in devices ==> d in table
    requires i < |devices| && j < |Metrics|
    ensures |TickOutcomes(ev, devices, table)| == 6 * |devices|
    ensures TickOutcomes(ev, devices, table)[6 * i + j] == ev(Metrics[j], devices[i], table[devices[i]])
  {
    var gs := ReportGroups(ev, devices, table);
    forall g | g in gs ensures |g| == 6 {
      var n :| 0 <= n < |gs| && gs[n] == g;
    }
    ConcatIndex(gs, i, j);
  }

  /** A tick has six reports per configured device. */
  lemma TickLength(ev: Reporter, devices: seq<string>, table: Table)
    requires forall d :: d in devices ==> d in table
    ensures |TickOutcomes(ev, devices, table)| == 6 * |devices|
  {
    var gs := ReportGroups(ev, devices, table);
    forall g | g in gs ensures |g| == 6 {
      var n :| 0 <= n < |gs| && gs[n] == g;
    }
    ConcatLength(gs);
  }

  /** Every event of a tick is named after a configured device and one of the six metrics. */
  lemma TickServices(k: Kernel, t: Thresholds, devices: seq<string>, table: Table, e: Event)
    requires forall d :: d in devices ==> d in table
    requires e in Steps(TickOutcomes(ReportMethods(k, t), devices, table)).events
    ensures exists i, j :: 0 <= i < |devices| && 0 <= j < |Metrics| && e.service == Service(devices[i], Metrics[j])
  {
    var ev := ReportMethods(k, t);
    var os := TickOutcomes(ev, devices, table);
    StepsEventsEmitted(os, e);
    var n :| 0 <= n < |os| && os[n] == Emit(e);
    TickOrder(ev, devices, table, 0, 0);
    var i, j := n / 6, n % 6;
    assert n == 6 * i + j;
    TickOrder(ev, devices, table, i, j);
  }

  /**
   * A device without data (a missing tool) stops the tick at its charge
   * report: the events are those of the devices before it, and NoMethodError
   * escapes, unless an earlier device already raised.
   */
  lemma EmptyDeviceStopsTick(k: Kernel, t: Thresholds, devices: seq<string>, table: Table, i: nat)
    requires forall d :: d in devices ==> d in table
    requires i < |devices| && table[devices[i]] == map[]
    ensures var before := Steps(TickOutcomes(ReportMethods(k, t), devices[..i], table));
      Steps(TickOutcomes(ReportMethods(k, t), devices, table)) == (if before.error.Some? then before else Run(before.events, Some(NoMethodError)))
  {
    var ev := ReportMethods(k, t);
    var gs := ReportGroups(ev, devices, table);
    assert ReportGroups(ev, devices[..i], table) == gs[..i];
    ConcatSplit(gs, i);
    EmptyMapRaisesFirst(k, t, devices[i]);
    StepsThrough(Concat(gs[..i]), gs[i], Concat(gs[i + 1..]));
  }

  /** The reports of group `i` sit between those of the groups before and after it. */
  lemma {:induction false} ConcatSplit(gs: seq<seq<Outcome>>, i: nat)
    requires i < |gs|
    ensures Concat(gs) == Concat(gs[..i]) + (gs[i] + Concat(gs[i + 1..]))
    decreases |gs|
  {
    var init := gs[..|gs| - 1];
    if i == |gs| - 1 {
      assert init == gs[..i];
      assert gs[i + 1..] == [];
    } else {
      ConcatSplit(init, i);
      assert init[..i] == gs[..i];
      assert init[i] == gs[i];
      var tail := gs[i + 1..];
      assert tail[..|tail| - 1] == init[i + 1..];
      assert tail[|tail| - 1] == gs[|gs| - 1];
      assert Concat(tail) == Concat(init[i + 1..]) + gs[|gs| - 1];
    }
  }

  /**
   * The run of the first `n` reports of one device: each report in turn,
   * and once one raises, no later report is made.
   */
  function MetricsRun(ev: Reporter, ups: string, data: map<string, Value>, n: nat): Run
    requires n <= |Metrics|
  {
    if n == 0 then Run([], None)
    else
      var before := MetricsRun(ev, ups, data, n - 1);
      if before.error.Some? then before
      else
        var o := ev(Metrics[n - 1], ups, data);
        Run(before.events + Emitted(o), Raised(o))
  }

  /** After an exception, the later reports of the device change nothing. */
  lemma {:induction false} MetricsRunStops(ev: Reporter, ups: string, data: map<string, Value>, j: nat, n: nat)
    requires j <= n <= |Metrics| && MetricsRun(ev, ups, data, j).error.Some?
    ensures MetricsRun(ev, ups, data, n) == MetricsRun(ev, ups, data, j)
    decreases n
  {
    if n > j {
      MetricsRunStops(ev, ups, data, j, n - 1);
    }
  }

  /** Running the reports one by one is running the device's report sequence. */
  lemma {:induction false} MetricsRunFlat(ev: Reporter, ups: string, data: map<string, Value>, n: nat)
    requires n <= |Metrics|
    ensures MetricsRun(ev, ups, data, n) == Steps(DeviceOutcomes(ev, ups, data)[..n])
    decreases n
  {
    var os := DeviceOutcomes(ev, ups, data);
    if n == 0 {
      assert os[..0] == [];
    } else {
      MetricsRunFlat(ev, ups, data, n - 1);
      assert os[..n] == os[..n - 1] + [os[n - 1]];
      if Steps(os[..n - 1]).error.None? {
        StepsSnoc(os[..n - 1], os[n - 1]);
      } else {
        StepsAppend(os[..n - 1], [os[n - 1]]);
      }
    }
  }

  /** The run of one device's block: all six reports. */
  function DeviceRun(ev: Reporter, ups: string, data: map<string, Value>): Run
  {
    MetricsRun(ev, ups, data, |Metrics|)
  }

  /** A device's block is the run of its report sequence. */
  lemma DeviceRunSteps(ev: Reporter, ups: string, data: map<string, Value>)
    ensures DeviceRun(ev, ups, data) == Steps(DeviceOutcomes(ev, ups, data))
  {
    MetricsRunFlat(ev, ups, data, |Metrics|);
    assert DeviceOutcomes(ev, ups, data)[..|Metrics|] == DeviceOutcomes(ev, ups, data);
  }

  /**
   * The run of the first `n` devices of a tick: each device's six reports in
   * turn, and once one raises, no later device is reported.
   */
  function DevicesRun(ev: Reporter, devices: seq<string>, table: Table, n: nat): Run
    requires forall d :: d in devices ==> d in table
    requires n <= |devices|
  {
    if n == 0 then Run([], None)
    else
      var before := DevicesRun(ev, devices, table, n - 1);
      if before.error.Some? then before
      else
        var own := DeviceRun(ev, devices[n - 1], table[devices[n - 1]]);
        Run(before.events + own.events, own.error)
  }

  /** After an exception, the later devices change nothing. */
  lemma {:induction false} DevicesRunStops(ev: Reporter, devices: seq<string>, table: Table, i: nat, n: nat)
    requires forall d :: d in devices ==> d in table
    requires i <= n <= |devices| && DevicesRun(ev, devices, table, i).error.Some?
    ensures DevicesRun(ev, devices, table, n) == DevicesRun(ev, devices, table, i)
    decreases n
  {
    if n > i {
      DevicesRunStops(ev, devices, table, i, n - 1);
    }
  }

  /** Running device after device is running the tick's reports as one sequence. */
  lemma {:induction false} DevicesRunFlat(ev: Reporter, devices: seq<string>, table: Table, n: nat)
    requires forall d :: d in devices ==> d in table
    requires n <= |devices|
    ensures DevicesRun(ev, devices, table, n) == Steps(Concat(ReportGroups(ev, devices, table)[..n]))
    decreases n
  {
    var gs := ReportGroups(ev, devices, table);
    if n == 0 {
      assert gs[..0] == [];
    } else {
      DevicesRunFlat(ev, devices, table, n - 1);
      assert gs[..n][..n - 1] == gs[..n - 1];
      StepsAppend(Concat(gs[..n - 1]), gs[n - 1]);
      DeviceRunSteps(ev, devices[n - 1], table[devices[n - 1]]);
    }
  }

  /** The whole tick, device by device, is the run of all its reports. */
  lemma TickRun(ev: Reporter, devices: seq<string>, table: Table)
    requires forall d :: d in devices ==> d in table
    ensures DevicesRun(ev, devices, table, |devices|) == Steps(TickOutcomes(ev, devices, table))
  {
    DevicesRunFlat(ev, devices, table, |devices|);
    var gs := ReportGroups(ev, devices, table);
    assert gs[..|devices|] == gs;
  }

  /** With no attributes, the first report of a device, the charge, raises NoMethodError. */
  lemma EmptyMapRaisesFirst(k: Kernel, t: Thresholds, ups: string)
    ensures var os := DeviceOutcomes(ReportMethods(k, t), ups, map[]);
      |os| > 0 && os[0] == Error(NoMethodError)
  {
    MissingChargeRaises(k, ups, map[]);
  }

  /** A group that starts with an exception ends the run there. */
  lemma StepsThrough(before: seq<Outcome>, g: seq<Outcome>, after: seq<Outcome>)
    requires |g| > 0 && g[0].Error?
    ensures Steps(before + (g + after)) ==
      (if Steps(before).error.Some? then Steps(before) else Run(Steps(before).events, Some(g[0].exception)))
  {
    StepsAppend(before, g + after);
    assert (g + after)[0] == g[0];
  }

  /** `Riemann::Tools::Nut`: its options, the `@cached_data` cache, and the sink as a log. */
  class Nut {
    const devices: seq<string>
    const thresholds: Thresholds
    const kernel: Kernel
    /** The six `report_*` methods, dispatched on the metric: `ReportMethods(kernel, thresholds)`, fixed by the constructor. */
    const reporter: Reporter

    /** Whether `@cached_data` holds a Hash: false until the first `invalidate_cache`. */
    var cleared: bool
    /** `@cached_data[:upsc]`: None until the first lookup of a tick; an empty table still counts as cached. */
    var cache: Option<Table>
    /** Every event passed to `report`, in order. */
    var log: seq<Event>
    /** The devices queried since the cache was last cleared. */
    ghost var queried: seq<string>

    ghost predicate Valid()
      reads this
    {
      cache.Some? ==> cleared && forall d :: d in devices ==> d in cache.value
    }

    /** A new tool has no `@cached_data` yet: every lookup fails until the cache is first cleared. */
    constructor (devices: seq<string>, thresholds: Thresholds, kernel: Kernel)
      ensures Valid()
      ensures this.devices == devices && this.thresholds == thresholds && this.kernel == kernel
      ensures reporter == ReportMethods(kernel, thresholds)
      ensures !cleared && cache.None? && log == [] && queried == []
    {
      this.devices := devices;
      this.thresholds := thresholds;
      this.kernel := kernel;
      reporter := ReportMethods(kernel, thresholds);
      cleared := false;
      cache := None;
      log := [];
      queried := [];
    }

    /** `invalidate_cache`: forget the table, so the next lookup queries again. */
    method InvalidateCache()
      requires Valid()
      modifies this
      ensures Valid()
      ensures cleared && cache.None? && queried == [] && log == old(log)
    {
      cleared := true;
      cache := None;
      queried := [];
    }

    /**
     * `upsc`: the cached table if there is one; otherwise query every
     * device once, in configuration order, and cache the result. Before the
     * first `invalidate_cache` the lookup itself raises NoMethodError.
     */
    method Upsc(query: Query) returns (table: Result<Table, Exception>)
      requires Valid()
      modifies this
      ensures Valid() && cleared == old(cleared) && log == old(log)
      ensures !old(cleared) ==> table == Failure(NoMethodError) && cache == old(cache) && queried == old(queried)
      ensures old(cleared) ==> table.Success? && cache == Some(table.value)
      ensures old(cleared) && old(cache).Some? ==> table.value == old(cache).value && queried == old(queried)
      ensures old(cleared) && old(cache).None? ==> table.value == BuildTable(kernel, devices, query) && queried == old(queried) + devices
    {
      if !cleared {
        return Failure(NoMethodError);
      }
      if cache.Some? {
        return Success(cache.value);
      }
      var t := map[];
      cache := Some(t);
      for i := 0 to |devices|
        invariant cleared && cache == Some(t) && log == old(log)
        invariant t == TablePrefix(kernel, devices, query, i)
        invariant queried == old(queried) + devices[..i]
      {
        var ups := devices[i];
        var response := query(ups);
        AppendNext(old(queried), devices, i);
        queried := queried + [ups];
        var data: map<string, Value>;
        match response {
          case None =>
            data := map[];
          case Some(output) =>
            data := ParseOutput(kernel, output);
        }
        t := t[ups := data];
        cache := Some(t);
      }
      Whole(devices);
      assert t == BuildTable(kernel, devices, query);
      table := Success(t);
    }

    /** One `report_*` method: look the device up through the cache, decide, and report. */
    method Report(m: Metric, ups: string, query: Query) returns (error: Option<Exception>)
      requires Valid() && ups in devices
      modifies this
      ensures Valid() && cleared == old(cleared)
      ensures !old(cleared) ==> error == Some(NoMethodError) && cache == old(cache) && queried == old(queried) && log == old(log)
      ensures old(cleared) ==> cache.Some?
      ensures old(cleared) && old(cache).Some? ==> cache == old(cache) && queried == old(queried)
      ensures old(cleared) && old(cache).None? ==> cache == Some(BuildTable(kernel, devices, query)) && queried == old(queried) + devices
      ensures old(cleared) ==> var o := reporter(m, ups, cache.value[ups]);
        log == old(log) + Emitted(o) && error == Raised(o)
    {
      var table := Upsc(query);
      if table.Failure? {
        return Some(table.error);
      }
      var o := reporter(m, ups, table.value[ups]);
      match o {
        case NoEvent =>
          error := None;
        case Emit(e) =>
          log := log + [e];
          error := None;
        case Error(e) =>
          error := Some(e);
      }
    }

    /**
     * The block `tick` runs for one device: the six reports in order, an
     * exception ending it. The reports all see the same cached table.
     */
    method ReportDevice(ups: string, query: Query) returns (error: Option<Exception>)
      requires Valid() && ups in devices
      modifies this
      ensures Valid() && cleared == old(cleared)
      ensures !old(cleared) ==> error == Some(NoMethodError) && cache == old(cache) && queried == old(queried) && log == old(log)
      ensures old(cleared) ==> cache.Some?
      ensures old(cleared) && old(cache).Some? ==> cache == old(cache) && queried == old(queried)
      ensures old(cleared) && old(cache).None? ==> cache == Some(BuildTable(kernel, devices, query)) && queried == old(queried) + devices
      ensures old(cleared) ==> var r := DeviceRun(reporter, ups, cache.value[ups]);
        log == old(log) + r.events && error == r.error
    {
      ghost var start := log;
      ghost var table := if old(cache).Some? then old(cache).value else BuildTable(kernel, devices, query);
      ghost var asked := if old(cache).Some? then old(queried) else old(queried) + devices;
      var j := 0;
      while j < |Metrics|
        invariant 0 <= j <= |Metrics| && Valid() && cleared == old(cleared)
        invariant j == 0 ==> cache == old(cache) && queried == old(queried) && log == start
        invariant j > 0 ==> cleared && cache == Some(table) && queried == asked && ups in table
        invariant j > 0 ==> var r := MetricsRun(reporter, ups, table[ups], j);
          r.error.None? && log == start + r.events
      {
        ghost var before := if j == 0 then Run([], None) else MetricsRun(reporter, ups, table[ups], j);
        error := Report(Metrics[j], ups, query);
        if !cleared {
          return;
        }
        assert cache == Some(table);
        AppendAssoc(start, before.events, Emitted(reporter(Metrics[j], ups, table[ups])));
        if error.Some? {
          MetricsRunStops(reporter, ups, table[ups], j + 1, |Metrics|);
          return;
        }
        j := j + 1;
      }
      error := None;
    }

    /**
     * `tick`: clear the cache, then run the six reports for each device in
     * order. The log grows by the events of the tick's run on a table built
     * from this tick's queries; an exception ends the tick and is returned.
     * Each configured device is queried once, however many lookups the
     * reports make.
     */
    method Tick(query: Query) returns (error: Option<Exception>)
      requires Valid()
      modifies this
      ensures Valid() && cleared
      ensures var r := DevicesRun(reporter, devices, BuildTable(kernel, devices, query), |devices|);
        log == old(log) + r.events && error == r.error
      ensures queried == devices
      ensures devices != [] ==> cache == Some(BuildTable(kernel, devices, query))
      ensures devices == [] ==> cache.None?
    {
      InvalidateCache();
      ghost var table := BuildTable(kernel, devices, query);
      ghost var start := log;
      var i := 0;
      while i < |devices|
        invariant 0 <= i <= |devices| && Valid() && cleared
        invariant i == 0 ==> cache.None? && queried == []
        invariant i > 0 ==> cache == Some(table) && queried == devices
        invariant var r := DevicesRun(reporter, devices, table, i);
          r.error.None? && log == start + r.events
      {
        var ups := devices[i];
        ghost var before := DevicesRun(reporter, devices, table, i);
        error := ReportDevice(ups, query);
        assert cache == Some(table);
        AppendAssoc(start, before.events, DeviceRun(reporter, ups, table[ups]).events);
        if error.Some? {
          DevicesRunStops(reporter, devices, table, i + 1, |devices|);
          return;
        }
        i := i + 1;
      }
      error := None;
    }
  }
}
