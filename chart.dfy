/**
 * The chart mount controller (`TradingViewChart.tsx`, its effect): load the
 * charting library, wait for the container to have a non-zero size with at
 * most ten rescheduled attempts, build the chart with floored dimensions,
 * load the candles, keep the size in step with the container, and tear it
 * all down on unmount.
 *
 * The charting library, the DOM and timers are abstract: the chart is a
 * value recording its size and series; the library load, the timer and the
 * resize notifications are events. `State` and the `On...` functions are
 * the specification; the `Controller` class is the effect's closure state
 * and is proved against them.
 */
module ChartMount {
  import opened Wrappers

  /** `maxRetries` */
  const MaxRetries: nat := 10
  /** The width and height floors of the chart. */
  const MinWidth: nat := 400
  const MinHeight: nat := 300
  const FailurePrefix: string := "Failed to load chart: "
  const UnknownError: string := "Unknown error"

  /** One input candle; prices are opaque numbers that are only copied. */
  datatype Candle = Candle(time: string, open: real, high: real, low: real, close: real)

  /** One point in the library's candlestick format. */
  datatype SeriesPoint = SeriesPoint(time: string, open: real, high: real, low: real, close: real)

  /** `data.map(item => ({ time, open, high, low, close }))`: one point per candle, same order, fields copied. */
  function FormatData(data: seq<Candle>): (r: seq<SeriesPoint>)
    ensures |r| == |data|
    ensures forall i :: 0 <= i < |data| ==>
      r[i].time == data[i].time && r[i].open == data[i].open && r[i].high == data[i].high
      && r[i].low == data[i].low && r[i].close == data[i].close
  {
    if data == [] then []
    else
      var c := data[0];
      [SeriesPoint(c.time, c.open, c.high, c.low, c.close)] + FormatData(data[1..])
  }

  /** Reading the candles back out of the series. */
  function CandlesOf(points: seq<SeriesPoint>): (r: seq<Candle>)
    ensures |r| == |points|
  {
    if points == [] then []
    else
      var p := points[0];
      [Candle(p.time, p.open, p.high, p.low, p.close)] + CandlesOf(points[1..])
  }

  /** The conversion loses nothing: the series gives back exactly the input candles. */
  lemma {:induction false} FormatDataLossless(data: seq<Candle>)
    ensures CandlesOf(FormatData(data)) == data
  {
    if data != [] {
      FormatDataLossless(data[1..]);
      assert FormatData(data)[1..] == FormatData(data[1..]);
    }
  }

  /** `defaultData`, the sample series used when no data is passed. */
  const DefaultData: seq<Candle> := [
    Candle("2019-04-11", 75.16, 82.84, 74.50, 80.01),
    Candle("2019-04-12", 80.01, 98.50, 79.00, 96.63),
    Candle("2019-04-13", 96.63, 97.20, 74.20, 76.64),
    Candle("2019-04-14", 76.64, 85.50, 75.80, 81.89),
    Candle("2019-04-15", 81.89, 83.20, 72.10, 74.43),
    Candle("2019-04-16", 74.43, 82.50, 73.90, 80.01),
    Candle("2019-04-17", 80.01, 99.00, 78.50, 96.63),
    Candle("2019-04-18", 96.63, 98.10, 75.20, 76.64),
    Candle("2019-04-19", 76.64, 86.30, 76.00, 81.89),
    Candle("2019-04-20", 81.89, 84.50, 71.80, 74.43),
    Candle("2019-04-21", 74.43, 83.20, 74.00, 80.01),
    Candle("2019-04-22", 80.01, 99.50, 79.20, 96.63),
    Candle("2019-04-23", 96.63, 97.80, 74.80, 76.64),
    Candle("2019-04-24", 76.64, 87.10, 75.50, 81.89),
    Candle("2019-04-25", 81.89, 83.80, 72.50, 74.43),
    Candle("2019-04-26", 74.43, 82.90, 73.60, 80.01),
    Candle("2019-04-27", 80.01, 98.80, 78.90, 96.63),
    Candle("2019-04-28", 96.63, 97.50, 75.60, 76.64),
    Candle("2019-04-29", 76.64, 86.80, 76.20, 81.89),
    Candle("2019-04-30", 81.89, 84.20, 72.20, 74.43)
  ]

  /** The sample series loads as twenty points, the first one closing at 80.01. */
  lemma DefaultDataLoaded()
    ensures |FormatData(DefaultData)| == 20
    ensures FormatData(DefaultData)[0] == SeriesPoint("2019-04-11", 75.16, 82.84, 74.50, 80.01)
  {
  }

  /**
   * A construction dimension, `Math.max(measured || fallback, fallback)`: at
   * least the floor, and a measurement at or above the floor is used as is.
   */
  function ConstructDim(measured: nat, floor: nat): (d: nat)
    ensures d >= floor
    ensures measured >= floor ==> d == measured
    ensures measured < floor ==> d == floor
  {
    var v := if measured == 0 then floor else measured;
    if v > floor then v else floor
  }

  /** A resize dimension, `Math.max(measured, floor)`. */
  function ResizeDim(measured: nat, floor: nat): (d: nat)
    ensures d >= floor && d >= measured
    ensures d == measured || d == floor
  {
    if measured > floor then measured else floor
  }

  /** The `|| fallback` step changes nothing once the floor is applied: both rules agree. */
  lemma ConstructAgreesWithResize(measured: nat, floor: nat)
    ensures ConstructDim(measured, floor) == ResizeDim(measured, floor)
  {
  }

  /** What measuring the container returns: no container element, or its client size. */
  datatype Container = Detached | Box(width: nat, height: nat)

  /** A live chart: its current size and the data loaded into its series. */
  datatype Chart = Chart(width: nat, height: nat, series: seq<SeriesPoint>)

  /** The controller's state: the effect's closure variables, the refs, the component state and two counters. */
  datatype State = State(
    mounted: bool,            // `isMounted`
    retryCount: nat,          // `retryCount`: timers scheduled so far
    timerPending: bool,       // a `retryTimeout` scheduled and not yet fired or cleared
    importPending: bool,      // an `initChart` waiting for the library import
    chart: Option<Chart>,     // the chart from `createChart`, until `remove()`
    chartsCreated: nat,       // how many times `createChart` ran; `cleanup` is set once it has
    refsSet: bool,            // `chartRef.current` and `seriesRef.current` are set
    observing: bool,          // the `ResizeObserver` is connected
    windowListening: bool,    // the window `resize` listener is registered
    isLoading: bool,
    error: Option<string>,
    measurements: nat)        // container measurements taken so far

  /** The first statements of `initChart`, up to the awaited import. */
  function Begin(s: State): (t: State)
    ensures t.importPending && t.isLoading && t.error.None?
  {
    s.(isLoading := true, error := None, importPending := true)
  }

  /** The state right after the effect starts: mounted, `initChart` awaiting the import. */
  function Mounted(): (s: State)
    ensures s.mounted && s.importPending && s.isLoading && s.chart.None? && s.retryCount == 0
  {
    Begin(State(true, 0, false, false, None, 0, false, false, false, true, None, 0))
  }

  /**
   * The import finished: return at once when unmounted or when there is no
   * container; otherwise measure, and on a zero dimension reschedule while
   * fewer than ten retries were made; else build the chart with floored
   * dimensions, load the data, attach the resize handlers and stop loading.
   */
  function OnImport(s: State, c: Container, data: seq<Candle>, hasObserver: bool): (t: State)
    requires s.importPending
    ensures !t.importPending
    ensures !s.mounted || c.Detached? ==> t == s.(importPending := false)
    ensures t.timerPending && !s.timerPending ==>
      c.Box? && (c.width == 0 || c.height == 0) && s.retryCount < MaxRetries && t.retryCount == s.retryCount + 1 && t.chart == s.chart
    ensures s.mounted && c.Box? && (c.width == 0 || c.height == 0) && s.retryCount < MaxRetries ==>
      t.timerPending && t.retryCount == s.retryCount + 1 && t.chart == s.chart
    ensures s.mounted && c.Box? && c.width > 0 && c.height > 0 ==>
      t.chart == Some(Chart(ConstructDim(c.width, MinWidth), ConstructDim(c.height, MinHeight), FormatData(data)))
      && t.chartsCreated == s.chartsCreated + 1
    ensures t.retryCount <= s.retryCount + 1 && (s.retryCount <= MaxRetries ==> t.retryCount <= MaxRetries)
    ensures s.mounted && c.Box? && (c.width == 0 || c.height == 0) && s.retryCount == MaxRetries ==>
      t.chart == Some(Chart(ConstructDim(c.width, MinWidth), ConstructDim(c.height, MinHeight), FormatData(data)))
    ensures t.chartsCreated != s.chartsCreated ==>
      s.mounted && c.Box? && t.chartsCreated == s.chartsCreated + 1 && !t.isLoading && t.refsSet && t.windowListening
      && t.observing == hasObserver
      && t.chart == Some(Chart(ConstructDim(c.width, MinWidth), ConstructDim(c.height, MinHeight), FormatData(data)))
  {
    var s := s.(importPending := false);
    if !s.mounted || c.Detached? then s
    else
      var s := s.(measurements := s.measurements + 1);
      if (c.width == 0 || c.height == 0) && s.retryCount < MaxRetries then
        s.(retryCount := s.retryCount + 1, timerPending := true)
      else
        Built(s, c.width, c.height, data, hasObserver)
  }

  /** Construction from a measurement: the chart with floored dimensions and the data, its refs and its handlers. */
  function Built(s: State, width: nat, height: nat, data: seq<Candle>, hasObserver: bool): (t: State)
    ensures t.chart.Some? && t.chart.value.width >= MinWidth && t.chart.value.height >= MinHeight
    ensures t.chart.value.series == FormatData(data) && t.chartsCreated == s.chartsCreated + 1
    ensures !t.isLoading && t.windowListening && t.observing == hasObserver
    ensures t.mounted == s.mounted && t.retryCount == s.retryCount && t.error == s.error
  {
    var chart := Chart(ConstructDim(width, MinWidth), ConstructDim(height, MinHeight), FormatData(data));
    s.(chart := Some(chart), chartsCreated := s.chartsCreated + 1, refsSet := true,
       observing := hasObserver, windowListening := true, isLoading := false)
  }

  /** The dynamic import of the library threw: report it while mounted; nothing is retried. */
  function OnFailure(s: State, message: Option<string>): (t: State)
    requires s.importPending
    ensures !t.importPending && !t.timerPending == !s.timerPending
    ensures s.mounted ==> t.error == Some(FailurePrefix + message.GetOr(UnknownError)) && !t.isLoading
    ensures !s.mounted ==> t == s.(importPending := false)
  {
    var s := s.(importPending := false);
    if s.mounted then s.(error := Some(FailurePrefix + message.GetOr(UnknownError)), isLoading := false)
    else s
  }

  /** The retry timer fired: call `initChart` again if still mounted. */
  function OnTimer(s: State): (t: State)
    requires s.timerPending
    ensures !t.timerPending
    ensures s.mounted ==> t.importPending && t.retryCount == s.retryCount && t.chart == s.chart
    ensures !s.mounted ==> t == s.(timerPending := false)
  {
    var s := s.(timerPending := false);
    if s.mounted then Begin(s) else s
  }

  /** `handleResize`, when a handler is attached: apply the floored container size to the existing chart. */
  function OnResize(s: State, c: Container): (t: State)
    ensures t.(chart := s.chart) == s
    ensures t.chart.Some? <==> s.chart.Some?
    ensures t.chart.Some? ==> t.chart.value.series == s.chart.value.series
    ensures t != s ==>
      c.Box? && t.chart.value.width == ResizeDim(c.width, MinWidth) && t.chart.value.height == ResizeDim(c.height, MinHeight)
    ensures (s.windowListening || s.observing) && c.Box? && s.chart.Some? ==>
      t.chart == Some(s.chart.value.(width := ResizeDim(c.width, MinWidth), height := ResizeDim(c.height, MinHeight)))
  {
    if (s.windowListening || s.observing) && c.Box? && s.chart.Some? then
      s.(chart := Some(s.chart.value.(width := ResizeDim(c.width, MinWidth), height := ResizeDim(c.height, MinHeight))))
    else s
  }

  /** The effect's cleanup: clear the pending timer, run `cleanup` if the chart was built, and null both refs. */
  function OnUnmount(s: State): (t: State)
    ensures !t.mounted && !t.timerPending && !t.refsSet
    ensures s.chartsCreated > 0 ==> t.chart.None? && !t.observing && !t.windowListening
    ensures s.chartsCreated == 0 ==> t.chart == s.chart && t.observing == s.observing && t.windowListening == s.windowListening
    ensures t.importPending == s.importPending && t.chartsCreated == s.chartsCreated
    ensures t.isLoading == s.isLoading && t.error == s.error
    ensures t.retryCount == s.retryCount && t.measurements == s.measurements
  {
    var s := s.(mounted := false, timerPending := false);
    var s := if s.chartsCreated > 0 then s.(observing := false, windowListening := false, chart := None) else s;
    s.(refsSet := false)
  }

  /** The controller's invariant over one effect run. */
  ghost predicate Inv(s: State, data: seq<Candle>, hasObserver: bool) {
    && s.retryCount <= MaxRetries
    && s.measurements == s.retryCount + s.chartsCreated
    && s.chartsCreated <= 1
    && !(s.timerPending && s.importPending)
    && (s.timerPending ==> s.mounted && s.retryCount > 0)
    && (s.chartsCreated == 1 ==> !s.timerPending && !s.importPending && !s.isLoading && s.error.None?)
    && (s.error.Some? ==> !s.timerPending && !s.importPending && !s.isLoading && s.chartsCreated == 0)
    && (s.chart.Some? ==> s.mounted && s.chartsCreated == 1 && s.chart.value.series == FormatData(data)
                          && s.chart.value.width >= MinWidth && s.chart.value.height >= MinHeight)
    && (s.mounted ==> (s.refsSet <==> s.chartsCreated == 1) && (s.isLoading <==> s.chartsCreated == 0 && s.error.None?))
    && (s.refsSet ==> s.chart.Some?)
    && (s.windowListening <==> s.chart.Some?)
    && (s.observing <==> s.chart.Some? && hasObserver)
    && (!s.mounted ==> !s.timerPending && s.chart.None? && !s.refsSet)
  }

  lemma MountedInv(data: seq<Candle>, hasObserver: bool)
    ensures Inv(Mounted(), data, hasObserver)
  {
  }

  /** Something that can happen to a mounted (or formerly mounted) chart view. */
  datatype Event =
    | ImportDone(container: Container)
    | ImportFailed(message: Option<string>)
    | TimerFired
    | Resized(container: Container)
    | Unmounted

  /** Whether the event can occur in this state. */
  predicate Enabled(s: State, e: Event) {
    match e
    case ImportDone(_) => s.importPending
    case ImportFailed(_) => s.importPending
    case TimerFired => s.timerPending
    case Resized(_) => true
    case Unmounted => s.mounted
  }

  function Step(s: State, e: Event, data: seq<Candle>, hasObserver: bool): State
    requires Enabled(s, e)
  {
    match e
    case ImportDone(c) => OnImport(s, c, data, hasObserver)
    case ImportFailed(m) => OnFailure(s, m)
    case TimerFired => OnTimer(s)
    case Resized(c) => OnResize(s, c)
    case Unmounted => OnUnmount(s)
  }

  /** Every step keeps the invariant. */
  lemma StepKeepsInv(s: State, e: Event, data: seq<Candle>, hasObserver: bool)
    requires Inv(s, data, hasObserver) && Enabled(s, e)
    ensures Inv(Step(s, e, data, hasObserver), data, hasObserver)
  {
  }

  /** A sequence of events; one that cannot occur in the state it meets is skipped. */
  function Run(s: State, events: seq<Event>, data: seq<Candle>, hasObserver: bool): State
    decreases |events|
  {
    if events == [] then s
    else
      var s' := if Enabled(s, events[0]) then Step(s, events[0], data, hasObserver) else s;
      Run(s', events[1..], data, hasObserver)
  }

  lemma {:induction false} RunAppend(s: State, a: seq<Event>, b: seq<Event>, data: seq<Candle>, hasObserver: bool)
    ensures Run(s, a + b, data, hasObserver) == Run(Run(s, a, data, hasObserver), b, data, hasObserver)
    decreases |a|
  {
    if a == [] {
      assert a + b == b;
    } else {
      assert (a + b)[0] == a[0];
      assert (a + b)[1..] == a[1..] + b;
      var s' := if Enabled(s, a[0]) then Step(s, a[0], data, hasObserver) else s;
      RunAppend(s', a[1..], b, data, hasObserver);
    }
  }

  /** Every run keeps the invariant. */
  lemma {:induction false} RunKeepsInv(s: State, events: seq<Event>, data: seq<Candle>, hasObserver: bool)
    requires Inv(s, data, hasObserver)
    ensures Inv(Run(s, events, data, hasObserver), data, hasObserver)
    decreases |events|
  {
    if events != [] {
      if Enabled(s, events[0]) {
        StepKeepsInv(s, events[0], data, hasObserver);
      }
      var s' := if Enabled(s, events[0]) then Step(s, events[0], data, hasObserver) else s;
      RunKeepsInv(s', events[1..], data, hasObserver);
    }
  }

  /**
   * Whatever happens in one effect run: at most ten timers are scheduled, at
   * most eleven measurements are taken, and at most one chart is created,
   * of at least 400 by 300, holding exactly the formatted data.
   */
  lemma {:induction false} EffectRunBounds(events: seq<Event>, data: seq<Candle>, hasObserver: bool)
    ensures var t := Run(Mounted(), events, data, hasObserver);
      t.retryCount <= MaxRetries && t.measurements <= MaxRetries + 1 && t.chartsCreated <= 1
      && (t.chart.Some? ==>
            t.chart.value.width >= MinWidth && t.chart.value.height >= MinHeight && t.chart.value.series == FormatData(data))
  {
    MountedInv(data, hasObserver);
    RunKeepsInv(Mounted(), events, data, hasObserver);
  }

  /** The part of the state a continuation could mutate: everything but the in-flight import. */
  function Settled(s: State): State {
    s.(importPending := false)
  }

  /**
   * After unmount nothing changes: a late import, a late failure, a resize
   * or a timer leaves the component and its refs exactly as they were.
   */
  lemma {:induction false} UnmountedIsInert(s: State, events: seq<Event>, data: seq<Candle>, hasObserver: bool)
    requires Inv(s, data, hasObserver) && !s.mounted
    ensures Settled(Run(s, events, data, hasObserver)) == Settled(s)
    ensures !Run(s, events, data, hasObserver).mounted
    decreases |events|
  {
    if events != [] {
      var s' := if Enabled(s, events[0]) then Step(s, events[0], data, hasObserver) else s;
      assert Settled(s') == Settled(s) && !s'.mounted;
      if Enabled(s, events[0]) {
        StepKeepsInv(s, events[0], data, hasObserver);
      }
      UnmountedIsInert(s', events[1..], data, hasObserver);
    }
  }

  /** Unmount releases everything: no timer, no chart, no handler, no ref. */
  lemma UnmountReleases(s: State, data: seq<Candle>, hasObserver: bool)
    requires Inv(s, data, hasObserver) && s.mounted
    ensures var t := OnUnmount(s);
      !t.mounted && !t.timerPending && t.chart.None? && !t.observing && !t.windowListening && !t.refsSet
  {
  }

  /** `k` rounds of a zero-sized container followed by the retry timer. */
  function ZeroPolls(k: nat): (r: seq<Event>)
    ensures |r| == 2 * k
  {
    if k == 0 then [] else ZeroPolls(k - 1) + [ImportDone(Box(0, 0)), TimerFired]
  }

  lemma {:induction false} ZeroPollsState(k: nat, data: seq<Candle>, hasObserver: bool)
    requires k <= MaxRetries
    ensures Run(Mounted(), ZeroPolls(k), data, hasObserver) == Mounted().(retryCount := k, measurements := k)
  {
    if k > 0 {
      ZeroPollsState(k - 1, data, hasObserver);
      RunAppend(Mounted(), ZeroPolls(k - 1), [ImportDone(Box(0, 0)), TimerFired], data, hasObserver);
      var s := Mounted().(retryCount := k - 1, measurements := k - 1);
      var s1 := OnImport(s, Box(0, 0), data, hasObserver);
      assert s1 == s.(importPending := false, retryCount := k, timerPending := true, measurements := k);
      assert Run(s, [ImportDone(Box(0, 0)), TimerFired], data, hasObserver) == Run(s1, [TimerFired], data, hasObserver);
    }
  }

  /**
   * A container that never gets a size: ten retries are scheduled, and the
   * eleventh measurement builds the chart at the fallback 400 by 300.
   */
  lemma NeverSizedFallsBack(data: seq<Candle>, hasObserver: bool)
    ensures var t := Run(Mounted(), ZeroPolls(MaxRetries) + [ImportDone(Box(0, 0))], data, hasObserver);
      t.retryCount == MaxRetries && t.measurements == MaxRetries + 1
      && t.chart == Some(Chart(400, 300, FormatData(data))) && !t.isLoading && !t.timerPending
  {
    ZeroPollsState(MaxRetries, data, hasObserver);
    RunAppend(Mounted(), ZeroPolls(MaxRetries), [ImportDone(Box(0, 0))], data, hasObserver);
  }

  /**
   * A container that is zero-sized for `k` measurements (at most ten) and
   * then measures `w` by `h`, both non-zero, gets a chart built from that
   * measurement after `k` retries.
   */
  lemma SizedAfterRetries(k: nat, w: nat, h: nat, data: seq<Candle>, hasObserver: bool)
    requires k <= MaxRetries && w > 0 && h > 0
    ensures var t := Run(Mounted(), ZeroPolls(k) + [ImportDone(Box(w, h))], data, hasObserver);
      t.retryCount == k && t.measurements == k + 1 && !t.isLoading
      && t.chart == Some(Chart(ConstructDim(w, MinWidth), ConstructDim(h, MinHeight), FormatData(data)))
  {
    ZeroPollsState(k, data, hasObserver);
    RunAppend(Mounted(), ZeroPolls(k), [ImportDone(Box(w, h))], data, hasObserver);
  }

  /**
   * Each import finishes while the view is loading: a mounted controller
   * awaiting the import always has `isLoading` set.
   */
  lemma ImportAwaitedWhileLoading(s: State, data: seq<Candle>, hasObserver: bool)
    requires Inv(s, data, hasObserver) && s.mounted && s.importPending
    ensures s.isLoading && s.chartsCreated == 0
  {
  }

  /** The closure state of one effect run of the chart component. */
  class Controller {
    const data: seq<Candle>
    const hasResizeObserver: bool   // `typeof ResizeObserver !== 'undefined'`

    var isMounted: bool
    var retryCount: nat
    var retryTimeout: bool          // a retry timer is scheduled
    var chart: Option<Chart>        // the chart `cleanup` removes
    var cleanup: bool               // `cleanup` has been assigned
    var refsSet: bool               // `chartRef.current`, `seriesRef.current`
    var observerConnected: bool
    var windowListener: bool
    var isLoading: bool
    var error: Option<string>
    ghost var importPending: bool
    ghost var chartsCreated: nat
    ghost var measurements: nat

    ghost function Snapshot(): State
      reads this
    {
      State(isMounted, retryCount, retryTimeout, importPending, chart, chartsCreated, refsSet,
            observerConnected, windowListener, isLoading, error, measurements)
    }

    ghost predicate Valid()
      reads this
    {
      Inv(Snapshot(), data, hasResizeObserver) && (cleanup <==> chartsCreated > 0)
    }

    /** Mount: the effect starts and calls `initChart`, which waits for the import. */
    constructor (data: seq<Candle>, hasResizeObserver: bool)
      ensures Valid() && Snapshot() == Mounted()
      ensures this.data == data && this.hasResizeObserver == hasResizeObserver
    {
      this.data := data;
      this.hasResizeObserver := hasResizeObserver;
      isMounted := true;
      retryCount := 0;
      retryTimeout := false;
      chart := None;
      cleanup := false;
      refsSet := false;
      observerConnected := false;
      windowListener := false;
      isLoading := true;
      error := None;
      importPending := false;
      chartsCreated := 0;
      measurements := 0;
      new;
      InitChart();
    }

    /** `initChart` up to `await import(...)`. */
    method InitChart()
      modifies this
      ensures Snapshot() == Begin(old(Snapshot())) && cleanup == old(cleanup)
    {
      isLoading := true;
      error := None;
      importPending := true;
    }

    /** The import resolved and the container measures `c`. */
    method ImportResolved(c: Container)
      requires Valid() && importPending
      modifies this
      ensures Valid() && Snapshot() == OnImport(old(Snapshot()), c, data, hasResizeObserver)
    {
      ghost var s0 := Snapshot();
      StepKeepsInv(s0, ImportDone(c), data, hasResizeObserver);
      importPending := false;
      if !isMounted || c.Detached? {
        return;
      }
      measurements := measurements + 1;
      var containerWidth, containerHeight := c.width, c.height;
      if containerWidth == 0 || containerHeight == 0 {
        if retryCount < MaxRetries {
          retryCount := retryCount + 1;
          retryTimeout := true;
          return;
        }
      }
      BuildChart(containerWidth, containerHeight);
    }

    /** `createChart`, `addSeries`, `setData`, the refs, the resize handlers, `setIsLoading(false)` and `cleanup`. */
    method BuildChart(containerWidth: nat, containerHeight: nat)
      modifies this
      ensures Snapshot() == Built(old(Snapshot()), containerWidth, containerHeight, data, hasResizeObserver)
      ensures cleanup
    {
      var width := ConstructDim(containerWidth, MinWidth);
      var height := ConstructDim(containerHeight, MinHeight);
      var series := FormatData(data);
      chart, chartsCreated, refsSet := Some(Chart(width, height, series)), chartsCreated + 1, true;
      observerConnected, windowListener, isLoading, cleanup := hasResizeObserver, true, false, true;
    }

    /** The dynamic import threw; `message` is the error's message when it is an `Error`. */
    method ImportRejected(message: Option<string>)
      requires Valid() && importPending
      modifies this
      ensures Valid() && Snapshot() == OnFailure(old(Snapshot()), message)
    {
      importPending := false;
      if isMounted {
        error := Some(FailurePrefix + message.GetOr(UnknownError));
        isLoading := false;
      }
    }

    /** The retry timer fires. */
    method FireTimer()
      requires Valid() && retryTimeout
      modifies this
      ensures Valid() && Snapshot() == OnTimer(old(Snapshot()))
    {
      retryTimeout := false;
      if isMounted {
        InitChart();
      }
    }

    /** The container or the window was resized and the container now measures `c`. */
    method Resize(c: Container)
      requires Valid()
      modifies this
      ensures Valid() && Snapshot() == OnResize(old(Snapshot()), c)
    {
      if (windowListener || observerConnected) && c.Box? && chart.Some? {
        var newWidth := ResizeDim(c.width, MinWidth);
        var newHeight := ResizeDim(c.height, MinHeight);
        chart := Some(chart.value.(width := newWidth, height := newHeight));
      }
    }

    /** The effect's cleanup. */
    method Unmount()
      requires Valid() && isMounted
      modifies this
      ensures Valid() && Snapshot() == OnUnmount(old(Snapshot()))
    {
      isMounted := false;
      if retryTimeout {
        retryTimeout := false;
      }
      if cleanup {
        observerConnected := false;
        windowListener := false;
        chart := None;
      }
      refsSet := false;
    }
  }
}
