/**
 * `log:consumption`: for each configured device, the energy aggregates of
 * consecutive windows of `span` seconds, from the second after the device's
 * stored cursor up to the clock reading taken once at the start of the run.
 * `WindowLoop` specifies one device's `while` loop window by window and
 * `DevicesLoop` the `foreach` over the devices; the methods are proved to
 * end in the states they compute, and the properties of the windows are
 * lemmas about `WindowLoop`.
 */
module LogConsumption {
  import opened Values
  import opened Api
  import opened Points
  import opened Reference
  import opened CursorStore
  import opened HCClientModel
  import opened Runs

  /** `'consumption_' . $id`: one cursor per device. */
  function CursorKey(id: int): string {
    "consumption_" + IntToString(id)
  }

  /** Different devices keep their cursors under different keys. */
  lemma CursorKeyInjective(a: int, b: int)
    ensures CursorKey(a) == CursorKey(b) ==> a == b
  {
    if CursorKey(a) == CursorKey(b) {
      assert IntToString(a) == CursorKey(a)[12..];
      assert IntToString(b) == CursorKey(b)[12..];
      IntCursorOfIntToString(a);
      IntCursorOfIntToString(b);
    }
  }

  /**
   * `createInfluxPoint`: a `consumption` point without a main value, tagged
   * with the device the data names and its room and section, carrying the
   * five aggregates as they came.
   */
  function ConsumptionPoint(data: ConsumptionData, devices: map<int, Device>, rooms: map<int, Room>,
                            sections: map<int, Section>, timestamp: int): (p: Point)
    ensures p.measurement == "consumption" && p.value.None? && p.timestamp == timestamp
    ensures |p.tags| == 6 && |p.fields| == 5 && p.tags[0] == ("device_id", Int(data.id))
  {
    var device := DeviceOf(devices, data.id);
    Point(
      "consumption",
      None,
      [("device_id", Int(data.id)), ("device_name", DeviceName(device))] + LocationTags(device, rooms, sections),
      [("consumption", data.kWh), ("powerCurrent", data.watts), ("powerMin", data.min),
       ("powerMax", data.max), ("powerAvg", data.avg)],
      timestamp)
  }

  /**
   * A consumption point has six tags: the device's id and name (null for a
   * device the controller did not list), then its room and section tags;
   * and five fields, each the aggregate it is named after.
   */
  lemma ConsumptionPointShape(data: ConsumptionData, devices: map<int, Device>, rooms: map<int, Room>,
                              sections: map<int, Section>, timestamp: int)
    ensures var p := ConsumptionPoint(data, devices, rooms, sections, timestamp);
      && Keys(p.tags) == ["device_id", "device_name", "room_name", "room_id", "section_name", "section_id"]
      && p.tags[1].1 == DeviceName(DeviceOf(devices, data.id))
      && p.tags[2..] == LocationTags(DeviceOf(devices, data.id), rooms, sections)
      && Keys(p.fields) == ["consumption", "powerCurrent", "powerMin", "powerMax", "powerAvg"]
      && [p.fields[0].1, p.fields[1].1, p.fields[2].1, p.fields[3].1, p.fields[4].1]
           == [data.kWh, data.watts, data.min, data.max, data.avg]
  {
    var device := DeviceOf(devices, data.id);
    var p := ConsumptionPoint(data, devices, rooms, sections, timestamp);
    var head: Record := [("device_id", Int(data.id)), ("device_name", DeviceName(device))];
    LocationSentinels(device, rooms, sections);
    KeysConcat(head, LocationTags(device, rooms, sections));
    assert p.tags[2..] == LocationTags(device, rooms, sections);
  }

  /**
   * `calculateProgressbarSteps`: the cast applies to the difference before
   * the division, so the bar's maximum is the exact quotient of the seconds
   * left by the span, capped at `maxCalls`. PHP's `/` divides by zero only
   * when `span` is 0, which the run reports as an exception.
   */
  function ProgressSteps(from: int, now: int, span: int, maxCalls: int): (steps: real)
    requires span != 0
    ensures steps <= maxCalls as real
    ensures steps == maxCalls as real || steps * span as real == (now - from) as real
    ensures (now - from) as real / span as real <= maxCalls as real ==> steps * span as real == (now - from) as real
  {
    var q := (now - from) as real / span as real;
    if q > maxCalls as real then maxCalls as real else q
  }

  /** What one run of the command works with: the reference data, its options and the clock reading. */
  datatype Setting = Setting(
    devices: map<int, Device>,
    rooms: map<int, Room>,
    sections: map<int, Section>,
    start: int,
    span: int,
    maxCalls: int,
    now: int,
    consumption: (int, int, int) -> Option<ConsumptionData>)

  // ---------------------------------------------------------------------------
  // One device's windows

  /** The `while` loop's state: the PHP locals, plus logs of the windows queried, the cursors stored, the batches written. */
  datatype Windows = Windows(
    from: int,
    to: int,
    callsLeft: int,
    halt: bool,
    requests: seq<(int, int)>,
    stores: seq<int>,
    batches: seq<seq<Point>>,
    model: StoreModel)

  /**
   * What querying the window `[from, to]` writes: nothing when the
   * controller has no data, else one point stamped at the truncated midpoint
   * of the window that follows, `[to + 1, to + span]`.
   */
  function WindowBatch(env: Setting, id: int, from: int, to: int): seq<seq<Point>> {
    var data := env.consumption(from, to, id);
    if data.None? then []
    else [[ConsumptionPoint(data.value, env.devices, env.rooms, env.sections, TruncDiv((to + 1) + (to + env.span), 2))]]
  }

  /**
   * One iteration: one call spent, the window queried, its end stored as the
   * cursor, the next window computed and the loop told to stop when that one
   * would end after the clock reading, and the point written when there is data.
   */
  function WindowStep(env: Setting, id: int, w: Windows): (t: Windows)
    ensures t.callsLeft == w.callsLeft - 1 && t.from == w.to + 1 && t.to == w.to + env.span
    ensures t.requests == w.requests + [(w.from, w.to)] && t.stores == w.stores + [w.to]
  {
    var from := w.to + 1;
    var to := from + (env.span - 1);
    w.(
      from := from,
      to := to,
      callsLeft := w.callsLeft - 1,
      halt := if to > env.now then true else w.halt,
      requests := w.requests + [(w.from, w.to)],
      stores := w.stores + [w.to],
      batches := w.batches + WindowBatch(env, id, w.from, w.to),
      model := StoredIn(w.model, CursorKey(id), IntToString(w.to)))
  }

  /** `while ($idMaxCalls > 0 && !$break)`. */
  function WindowLoop(env: Setting, id: int, w: Windows): Windows
    decreases if w.callsLeft > 0 then w.callsLeft else 0
  {
    if w.callsLeft > 0 && !w.halt then WindowLoop(env, id, WindowStep(env, id, w)) else w
  }

  function InitialWindows(env: Setting, from: int, model: StoreModel): Windows {
    Windows(from, from + (env.span - 1), env.maxCalls, false, [], [], [], model)
  }

  /** The state the device's loop ends in, from its first window's start. */
  function DeviceEnd(env: Setting, id: int, from: int, m0: StoreModel): Windows {
    WindowLoop(env, id, InitialWindows(env, from, m0))
  }

  /** The batches the queried windows yield, in order. */
  function WindowBatches(env: Setting, id: int, requests: seq<(int, int)>): seq<seq<Point>> {
    if requests == [] then []
    else
      var r := requests[|requests| - 1];
      WindowBatches(env, id, requests[..|requests| - 1]) + WindowBatch(env, id, r.0, r.1)
  }

  // ---------------------------------------------------------------------------
  // What the window loop does, window by window

  /**
   * The windows queried: `span` seconds each from `from0` on, at most
   * `maxCalls` of them, each ending by the clock reading; the loop is told
   * to stop exactly when the next window would end after it.
   */
  ghost predicate Spans(env: Setting, from0: int, w: Windows) {
    var n := |w.requests|;
    && w.callsLeft == env.maxCalls - n
    && (n == 0 || n <= env.maxCalls)
    && (forall k :: 0 <= k < n ==> w.requests[k] == (from0 + k * env.span, from0 + k * env.span + (env.span - 1)))
    && w.from == from0 + n * env.span
    && w.to == w.from + (env.span - 1)
    && (forall k :: 0 <= k < n ==> w.requests[k].1 <= env.now)
    && (w.halt <==> n > 0 && w.to > env.now)
  }

  /** One cursor stored per window, the window's end, and the store holding them in order. */
  ghost predicate WindowStores(id: int, m0: StoreModel, w: Windows) {
    && |w.stores| == |w.requests|
    && (forall k :: 0 <= k < |w.requests| ==> w.stores[k] == w.requests[k].1)
    && w.model == StoreInts(m0, CursorKey(id), w.stores)
  }

  /** A state the loop reaches from `InitialWindows(env, from0, m0)`, whose first window ends by the clock reading. */
  ghost predicate WindowsTraced(env: Setting, id: int, from0: int, m0: StoreModel, w: Windows) {
    && from0 + (env.span - 1) <= env.now
    && Spans(env, from0, w)
    && WindowStores(id, m0, w)
    && w.batches == WindowBatches(env, id, w.requests)
  }

  /** `t` has queried the window of `w` and moved to the next one, stopping when that one ends after the clock reading. */
  ghost predicate Moves(env: Setting, w: Windows, t: Windows) {
    && t.requests == w.requests + [(w.from, w.to)]
    && t.callsLeft == w.callsLeft - 1
    && t.from == w.to + 1
    && t.to == t.from + (env.span - 1)
    && t.halt == (t.to > env.now)
  }

  /** `t` has stored the end of the window of `w` as the cursor. */
  ghost predicate Records(id: int, w: Windows, t: Windows) {
    t.stores == w.stores + [w.to] && t.model == StoredIn(w.model, CursorKey(id), IntToString(w.to))
  }

  /** What one step adds to the logs. */
  lemma StepAdvances(env: Setting, id: int, w: Windows)
    requires !w.halt
    ensures var t := WindowStep(env, id, w);
      Moves(env, w, t) && Records(id, w, t) && t.batches == w.batches + WindowBatch(env, id, w.from, w.to)
  {
  }

  lemma NextMultiple(k: int, span: int)
    ensures k * span + span == (k + 1) * span
  {
  }

  lemma StepSpans(env: Setting, from0: int, w: Windows, t: Windows)
    requires from0 + (env.span - 1) <= env.now && Spans(env, from0, w) && w.callsLeft > 0 && !w.halt
    requires Moves(env, w, t)
    ensures Spans(env, from0, t)
  {
    var n := |w.requests|;
    NextMultiple(n, env.span);
    assert forall k :: 0 <= k < n ==> t.requests[k] == w.requests[k];
  }

  lemma StepWindowStores(id: int, m0: StoreModel, w: Windows, t: Windows)
    requires WindowStores(id, m0, w) && t.requests == w.requests + [(w.from, w.to)] && Records(id, w, t)
    ensures WindowStores(id, m0, t)
  {
    assert forall k :: 0 <= k < |w.requests| ==> t.requests[k] == w.requests[k];
    assert t.stores[..|w.stores|] == w.stores;
  }

  lemma StepWindowBatches(env: Setting, id: int, w: Windows, t: Windows)
    requires w.batches == WindowBatches(env, id, w.requests) && t.requests == w.requests + [(w.from, w.to)]
    requires t.batches == w.batches + WindowBatch(env, id, w.from, w.to)
    ensures t.batches == WindowBatches(env, id, t.requests)
  {
    assert t.requests[..|w.requests|] == w.requests;
  }

  /** The loop keeps `WindowsTraced` and ends with the budget spent or the clock reading reached. */
  lemma {:induction false} WindowLoopTraced(env: Setting, id: int, from0: int, m0: StoreModel, w: Windows)
    requires WindowsTraced(env, id, from0, m0, w)
    ensures var f := WindowLoop(env, id, w);
      WindowsTraced(env, id, from0, m0, f) && (f.callsLeft <= 0 || f.halt)
    decreases if w.callsLeft > 0 then w.callsLeft else 0
  {
    if w.callsLeft > 0 && !w.halt {
      var t := WindowStep(env, id, w);
      StepAdvances(env, id, w);
      StepSpans(env, from0, w, t);
      StepWindowStores(id, m0, w, t);
      StepWindowBatches(env, id, w, t);
      WindowLoopTraced(env, id, from0, m0, t);
    }
  }

  lemma DeviceEndTraced(env: Setting, id: int, from0: int, m0: StoreModel)
    requires from0 + (env.span - 1) <= env.now
    ensures var f := DeviceEnd(env, id, from0, m0);
      WindowsTraced(env, id, from0, m0, f) && (f.callsLeft <= 0 || f.halt)
  {
    WindowLoopTraced(env, id, from0, m0, InitialWindows(env, from0, m0));
  }

  /** What `Spans` says of a state the loop ends in. */
  lemma SpansAtEnd(env: Setting, id: int, from0: int, m0: StoreModel, f: Windows)
    requires WindowsTraced(env, id, from0, m0, f) && (f.callsLeft <= 0 || f.halt)
    ensures var n := |f.requests|;
      && n <= (if env.maxCalls > 0 then env.maxCalls else 0)
      && (forall k :: 0 <= k < n ==> f.requests[k] == (from0 + k * env.span, from0 + k * env.span + (env.span - 1)))
      && (forall k :: 0 <= k < n ==> f.requests[k].1 <= env.now)
      && (n < (if env.maxCalls > 0 then env.maxCalls else 0) ==> n > 0 && f.to > env.now)
      && f.from == from0 + n * env.span
  {
  }

  /**
   * The windows a device gets: `[from0 + k*span, from0 + k*span + span - 1]`
   * for k = 0, 1, ..., each ending by the clock reading, at most `maxCalls`
   * of them, and fewer only when the next window would end after the clock
   * reading.
   */
  lemma DeviceWindows(env: Setting, id: int, from0: int, m0: StoreModel)
    requires from0 + (env.span - 1) <= env.now
    ensures var f := DeviceEnd(env, id, from0, m0);
      var n := |f.requests|;
      && n <= (if env.maxCalls > 0 then env.maxCalls else 0)
      && (forall k :: 0 <= k < n ==>
            f.requests[k] == (from0 + k * env.span, from0 + k * env.span + (env.span - 1)))
      && (forall k :: 0 <= k < n ==> f.requests[k].1 <= env.now)
      && (n < (if env.maxCalls > 0 then env.maxCalls else 0) ==> n > 0 && f.to > env.now)
      && f.from == from0 + n * env.span
  {
    DeviceEndTraced(env, id, from0, m0);
    SpansAtEnd(env, id, from0, m0, DeviceEnd(env, id, from0, m0));
  }

  /** Each window starts the second after the previous one ends. */
  lemma DeviceWindowsContiguous(env: Setting, id: int, from0: int, m0: StoreModel)
    requires from0 + (env.span - 1) <= env.now
    ensures var f := DeviceEnd(env, id, from0, m0);
      forall k :: 0 < k < |f.requests| ==> f.requests[k].0 == f.requests[k - 1].1 + 1
  {
    var f := DeviceEnd(env, id, from0, m0);
    DeviceEndTraced(env, id, from0, m0);
    forall k | 0 < k < |f.requests|
      ensures f.requests[k].0 == f.requests[k - 1].1 + 1
    {
      NextMultiple(k - 1, env.span);
    }
  }

  /**
   * A device stores the end of every window it queries, whether or not the
   * controller had data for it; the batches are those of its windows.
   */
  lemma DeviceStores(env: Setting, id: int, from0: int, m0: StoreModel)
    requires from0 + (env.span - 1) <= env.now
    ensures var f := DeviceEnd(env, id, from0, m0);
      && |f.stores| == |f.requests|
      && (forall k :: 0 <= k < |f.requests| ==> f.stores[k] == f.requests[k].1)
      && f.model == StoreInts(m0, CursorKey(id), f.stores)
      && f.batches == WindowBatches(env, id, f.requests)
  {
    DeviceEndTraced(env, id, from0, m0);
  }

  /** `p` is the point of a queried window, stamped within the window after it. */
  ghost predicate FromWindow(env: Setting, id: int, requests: seq<(int, int)>, p: Point) {
    exists k :: 0 <= k < |requests| && WindowBatch(env, id, requests[k].0, requests[k].1) == [[p]]
  }

  /** A window's point, if any, lies in the window that follows it: after the seconds it measures. */
  lemma WindowBatchTimestamp(env: Setting, id: int, from: int, to: int)
    requires env.span > 0
    ensures |WindowBatch(env, id, from, to)| <= 1
    ensures forall b: seq<Point> :: b in WindowBatch(env, id, from, to) ==>
      |b| == 1 && to < b[0].timestamp <= to + env.span
      && b[0].tags[0] == ("device_id", Int(env.consumption(from, to, id).value.id))
  {
    var a := (to + 1) + (to + env.span);
    var q := TruncDiv(a, 2);
    if a >= 0 {
      assert q * 2 <= a < q * 2 + 2;
    } else {
      assert -q * 2 <= -a < -q * 2 + 2;
    }
  }

  /** Every queried window with data has its point written, as its own batch. */
  lemma {:induction false} WindowBatchesCover(env: Setting, id: int, requests: seq<(int, int)>, k: int)
    requires 0 <= k < |requests| && env.consumption(requests[k].0, requests[k].1, id).Some?
    ensures WindowBatch(env, id, requests[k].0, requests[k].1)[0] in WindowBatches(env, id, requests)
  {
    var init := requests[..|requests| - 1];
    if k < |init| {
      assert requests[k] == init[k];
      WindowBatchesCover(env, id, init, k);
    }
  }

  /** Every batch of the queried windows is one point of one of them. */
  lemma {:induction false} WindowBatchesSources(env: Setting, id: int, requests: seq<(int, int)>, j: int)
    requires 0 <= j < |WindowBatches(env, id, requests)|
    ensures var b := WindowBatches(env, id, requests)[j]; |b| == 1 && FromWindow(env, id, requests, b[0])
  {
    var init := requests[..|requests| - 1];
    var r := requests[|requests| - 1];
    var left := WindowBatches(env, id, init);
    var b := WindowBatches(env, id, requests)[j];
    if j < |left| {
      WindowBatchesSources(env, id, init, j);
      var k :| 0 <= k < |init| && WindowBatch(env, id, init[k].0, init[k].1) == [[b[0]]];
      assert requests[k] == init[k];
    } else {
      assert WindowBatch(env, id, r.0, r.1) == [b];
      assert |requests| - 1 < |requests|;
    }
  }

  /**
   * A device's batches are single points, each from one of its queried
   * windows, and every queried window the controller has data for has its
   * point written.
   */
  lemma DevicePoints(env: Setting, id: int, from0: int, m0: StoreModel)
    requires from0 + (env.span - 1) <= env.now
    ensures var f := DeviceEnd(env, id, from0, m0);
      forall j :: 0 <= j < |f.batches| ==> |f.batches[j]| == 1 && FromWindow(env, id, f.requests, f.batches[j][0])
    ensures var f := DeviceEnd(env, id, from0, m0);
      forall k :: 0 <= k < |f.requests| && env.consumption(f.requests[k].0, f.requests[k].1, id).Some? ==>
        WindowBatch(env, id, f.requests[k].0, f.requests[k].1)[0] in f.batches
  {
    var f := DeviceEnd(env, id, from0, m0);
    DeviceEndTraced(env, id, from0, m0);
    forall j | 0 <= j < |f.batches|
      ensures |f.batches[j]| == 1 && FromWindow(env, id, f.requests, f.batches[j][0])
    {
      WindowBatchesSources(env, id, f.requests, j);
    }
    forall k | 0 <= k < |f.requests| && env.consumption(f.requests[k].0, f.requests[k].1, id).Some?
      ensures WindowBatch(env, id, f.requests[k].0, f.requests[k].1)[0] in f.batches
    {
      WindowBatchesCover(env, id, f.requests, k);
    }
  }

  // ---------------------------------------------------------------------------
  // The devices, one after the other

  /** `$lastUsedTimestamp ? $lastUsedTimestamp + 1 : $startTimestamp + 1`. */
  function FirstFrom(env: Setting, cursor: Cursor): int
    requires !cursor.Unreadable?
  {
    if cursor.At? then cursor.n + 1 else env.start + 1
  }

  /** How a device's turn ends: the `foreach` goes on, or the run ends with this outcome. */
  datatype Next = Continue | Stop(outcome: Outcome)

  datatype DeviceResult = DeviceResult(next: Next, model: StoreModel, batches: seq<seq<Point>>)

  /** Where a device's turn is headed once its cursor is loaded: the run ends here, or its windows run from `from`. */
  datatype Start = Halt(outcome: Outcome) | Run(from: int)

  /**
   * The start of a device's turn: its cursor loaded, its first window
   * computed; a device already caught up with the clock ends the whole run
   * (`break`), and a `span` of 0 fails at the progress bar.
   */
  function DeviceStart(env: Setting, id: int, model: StoreModel): Start {
    var cursor := ParseCursor(LoadFrom(model, CursorKey(id)));
    if cursor.Unreadable? then Halt(Thrown)
    else
      var from := FirstFrom(env, cursor);
      if from + (env.span - 1) > env.now then Halt(Exit(0))
      else if env.span == 0 then Halt(Thrown)
      else Run(from)
  }

  /** One device's turn: halted at its start, or its windows run. */
  function DeviceStep(env: Setting, id: int, model: StoreModel): DeviceResult {
    match DeviceStart(env, id, model)
    case Halt(outcome) => DeviceResult(Stop(outcome), model, [])
    case Run(from) =>
      var f := DeviceEnd(env, id, from, model);
      DeviceResult(Continue, f.model, f.batches)
  }

  /** `foreach ($this->ids as $id)`, given the batches written so far. */
  function DevicesLoop(env: Setting, ids: seq<int>, model: StoreModel, written: seq<seq<Point>>): RunResult
    decreases |ids|
  {
    if ids == [] then RunResult(Exit(0), model, written)
    else
      var d := DeviceStep(env, ids[0], model);
      if d.next.Stop? then RunResult(d.next.outcome, d.model, written + d.batches)
      else DevicesLoop(env, ids[1..], d.model, written + d.batches)
  }

  function ClientSetting(client: HCClient, start: int, span: int, maxCalls: int, now: int): Setting
    requires client.controller.sections.Some?
  {
    Setting(
      IndexById(ListOf(client.controller.devices), DeviceId),
      IndexById(ListOf(client.controller.rooms), RoomId),
      client.controller.sections.value,
      start, span, maxCalls, now,
      client.controller.consumption)
  }

  /** `execute`, from the store it starts with and the clock reading `now`. */
  function ConsumptionRun(client: HCClient, model: StoreModel, ids: seq<int>, start: int, span: int, maxCalls: int,
                          now: int): RunResult
  {
    if client.controller.sections.None? then RunResult(Exit(1), model, [])
    else DevicesLoop(ClientSetting(client, start, span, maxCalls, now), ids, model, [])
  }

  // ---------------------------------------------------------------------------
  // The methods

  /** The PHP locals of the window loop agree with its state. */
  ghost predicate Mirrors(w: Windows, from: int, to: int, calls: int, halt: bool) {
    w.from == from && w.to == to && w.callsLeft == calls && w.halt == halt
  }

  /** One iteration of the `while` loop. */
  method ImportWindow(env: Setting, id: int, storage: Storage, sink: Sink, from: int, to: int,
                      ghost w: Windows, ghost prefix: seq<seq<Point>>)
    returns (from': int, to': int, halt: bool, ghost t: Windows)
    requires w.from == from && w.to == to && !w.halt && w.model == storage.Model()
    requires sink.written == prefix + w.batches
    modifies storage.Repr(), sink
    ensures t == WindowStep(env, id, w)
    ensures t.from == from' && t.to == to' && t.halt == halt && t.model == storage.Model()
    ensures sink.written == prefix + t.batches
  {
    var data := env.consumption(from, to, id);
    var _ := storage.Store(CursorKey(id), IntToString(to));
    from' := to + 1;
    to' := from' + (env.span - 1);
    halt := false;
    if to' > env.now {
      halt := true;
    }
    t := WindowStep(env, id, w);
    if data.Some? {
      var point := ConsumptionPoint(data.value, env.devices, env.rooms, env.sections, TruncDiv(to' + from', 2));
      sink.WritePoints([point]);
      assert sink.written == prefix + (w.batches + [[point]]);
    }
  }

  /** One device's `while` loop, from its first window to its last. */
  method ImportWindows(env: Setting, id: int, storage: Storage, sink: Sink, from: int) returns (ghost f: Windows)
    modifies storage.Repr(), sink
    ensures f == DeviceEnd(env, id, from, old(storage.Model()))
    ensures storage.Model() == f.model && sink.written == old(sink.written) + f.batches
  {
    ghost var w := InitialWindows(env, from, storage.Model());
    ghost var final := WindowLoop(env, id, w);
    var from := from;
    var to := from + (env.span - 1);
    var calls := env.maxCalls;
    var halt := false;
    while calls > 0 && !halt
      invariant Mirrors(w, from, to, calls, halt) && w.model == storage.Model()
      invariant WindowLoop(env, id, w) == final
      invariant sink.written == old(sink.written) + w.batches
      decreases if calls > 0 then calls else 0
    {
      calls := calls - 1;
      from, to, halt, w := ImportWindow(env, id, storage, sink, from, to, w, old(sink.written));
    }
    f := final;
  }

  /** The head of one pass of the `foreach`: the cursor, the first window, the `break`, the progress bar. */
  method StartDevice(env: Setting, storage: Storage, id: int) returns (start: Start)
    ensures start == DeviceStart(env, id, storage.Model())
  {
    var cursor := ParseCursor(storage.Load(CursorKey(id)));
    if cursor.Unreadable? {
      return Halt(Thrown);
    }
    var from := if cursor.At? then cursor.n + 1 else env.start + 1;
    var to := from + (env.span - 1);
    if to > env.now {
      return Halt(Exit(0));
    }
    if env.span == 0 {
      return Halt(Thrown);
    }
    var steps := ProgressSteps(from, env.now, env.span, env.maxCalls);
    start := Run(from);
  }

  /** One pass of the `foreach`: its start, then its windows unless it halts. */
  method ImportDevice(env: Setting, storage: Storage, sink: Sink, id: int) returns (next: Next, ghost d: DeviceResult)
    modifies storage.Repr(), sink
    ensures d == DeviceStep(env, id, old(storage.Model()))
    ensures next == d.next && storage.Model() == d.model && sink.written == old(sink.written) + d.batches
  {
    var start := StartDevice(env, storage, id);
    if start.Halt? {
      return Stop(start.outcome), DeviceResult(Stop(start.outcome), storage.Model(), []);
    }
    ghost var f := ImportWindows(env, id, storage, sink, start.from);
    next, d := Continue, DeviceResult(Continue, f.model, f.batches);
  }

  /** The `foreach` from the i-th device on: that device's turn, then the rest unless it stops the run. */
  lemma DevicesLoopAt(env: Setting, ids: seq<int>, i: int, model: StoreModel, written: seq<seq<Point>>, d: DeviceResult)
    requires 0 <= i < |ids| && d == DeviceStep(env, ids[i], model)
    ensures DevicesLoop(env, ids[i..], model, written) ==
      if d.next.Stop? then RunResult(d.next.outcome, d.model, written + d.batches)
      else DevicesLoop(env, ids[i + 1..], d.model, written + d.batches)
  {
    assert ids[i..][0] == ids[i] && ids[i..][1..] == ids[i + 1..];
  }

  /** `execute`: the reference data, the clock reading `now`, then the devices in turn. */
  method Execute(client: HCClient, storage: Storage, sink: Sink, ids: seq<int>, start: int, span: int, maxCalls: int,
                 now: int) returns (outcome: Outcome)
    modifies storage.Repr(), sink
    ensures var run := ConsumptionRun(client, old(storage.Model()), ids, start, span, maxCalls, now);
      outcome == run.outcome && storage.Model() == run.model && sink.written == old(sink.written) + run.batches
  {
    var devices := client.Devices();
    var rooms := client.Rooms();
    if client.controller.sections.None? {
      return Exit(1);
    }
    var env := Setting(devices, rooms, client.controller.sections.value, start, span, maxCalls, now,
      client.controller.consumption);
    assert env == ClientSetting(client, start, span, maxCalls, now);
    outcome := ImportDevices(env, storage, sink, ids);
  }

  /** One pass of the `foreach`, and where it leaves the rest of the loop. */
  method ImportTurn(env: Setting, storage: Storage, sink: Sink, ids: seq<int>, i: int,
                    ghost model: StoreModel, ghost acc: seq<seq<Point>>, ghost base: seq<seq<Point>>)
    returns (next: Next, ghost model': StoreModel, ghost acc': seq<seq<Point>>)
    requires 0 <= i < |ids| && model == storage.Model() && sink.written == base + acc
    modifies storage.Repr(), sink
    ensures model' == storage.Model() && sink.written == base + acc'
    ensures DevicesLoop(env, ids[i..], model, acc) ==
      if next.Stop? then RunResult(next.outcome, model', acc') else DevicesLoop(env, ids[i + 1..], model', acc')
  {
    ghost var d;
    next, d := ImportDevice(env, storage, sink, ids[i]);
    model', acc' := d.model, acc + d.batches;
    DevicesLoopTurn(env, ids, i, model, acc, base, d, sink.written);
  }

  /** `DevicesLoopAt`, with what has been written regrouped as the earlier batches followed by this turn's. */
  lemma DevicesLoopTurn(env: Setting, ids: seq<int>, i: int, model: StoreModel, acc: seq<seq<Point>>,
                        base: seq<seq<Point>>, d: DeviceResult, written: seq<seq<Point>>)
    requires 0 <= i < |ids| && d == DeviceStep(env, ids[i], model) && written == (base + acc) + d.batches
    ensures written == base + (acc + d.batches)
    ensures DevicesLoop(env, ids[i..], model, acc) ==
      if d.next.Stop? then RunResult(d.next.outcome, d.model, acc + d.batches)
      else DevicesLoop(env, ids[i + 1..], d.model, acc + d.batches)
  {
    DevicesLoopAt(env, ids, i, model, acc, d);
  }

  /** The `foreach` over the configured devices. */
  method ImportDevices(env: Setting, storage: Storage, sink: Sink, ids: seq<int>) returns (outcome: Outcome)
    modifies storage.Repr(), sink
    ensures var run := DevicesLoop(env, ids, old(storage.Model()), []);
      outcome == run.outcome && storage.Model() == run.model && sink.written == old(sink.written) + run.batches
  {
    ghost var model := storage.Model();
    ghost var final := DevicesLoop(env, ids, model, []);
    ghost var acc: seq<seq<Point>> := [];
    var i := 0;
    var next := Continue;
    while i < |ids| && next.Continue?
      invariant 0 <= i <= |ids|
      invariant model == storage.Model() && sink.written == old(sink.written) + acc
      invariant next.Continue? ==> DevicesLoop(env, ids[i..], model, acc) == final
      invariant next.Stop? ==> final == RunResult(next.outcome, model, acc)
    {
      next, model, acc := ImportTurn(env, storage, sink, ids, i, model, acc, old(sink.written));
      i := i + 1;
    }
    if next.Continue? {
      DevicesLoopDone(env, ids, i, model, acc);
      outcome := Exit(0);
    } else {
      outcome := next.outcome;
    }
  }

  /** Past the last device the `foreach` ends with 0. */
  lemma DevicesLoopDone(env: Setting, ids: seq<int>, i: int, model: StoreModel, acc: seq<seq<Point>>)
    requires i == |ids|
    ensures DevicesLoop(env, ids[i..], model, acc) == RunResult(Exit(0), model, acc)
  {
    assert ids[i..] == [];
  }

  // ---------------------------------------------------------------------------
  // Properties of a run

  /**
   * A device whose cursor is already within `span` seconds of the clock
   * reading ends the run with exit code 0: the devices after it are not
   * looked at.
   */
  lemma CaughtUpEndsRun(env: Setting, ids: seq<int>, model: StoreModel, written: seq<seq<Point>>)
    requires ids != []
    requires var cursor := ParseCursor(LoadFrom(model, CursorKey(ids[0])));
      !cursor.Unreadable? && FirstFrom(env, cursor) + (env.span - 1) > env.now
    ensures forall rest: seq<int> ::
      DevicesLoop(env, [ids[0]] + rest, model, written) == RunResult(Exit(0), model, written)
  {
    forall rest: seq<int>
      ensures DevicesLoop(env, [ids[0]] + rest, model, written) == RunResult(Exit(0), model, written)
    {
      assert ([ids[0]] + rest)[0] == ids[0];
    }
  }

  /** A run touches only the cursors of the devices it is given, and adds to what was written before. */
  lemma {:induction false} DevicesLoopFrame(env: Setting, ids: seq<int>, model: StoreModel, written: seq<seq<Point>>,
                                            other: string)
    requires forall id :: id in ids ==> CursorKey(id) != other
    ensures var run := DevicesLoop(env, ids, model, written);
      LoadFrom(run.model, other) == LoadFrom(model, other) && written <= run.batches
    decreases |ids|
  {
    if ids != [] {
      var id := ids[0];
      var d := DeviceStep(env, id, model);
      var cursor := ParseCursor(LoadFrom(model, CursorKey(id)));
      if !cursor.Unreadable? && FirstFrom(env, cursor) + (env.span - 1) <= env.now && env.span != 0 {
        DeviceStores(env, id, FirstFrom(env, cursor), model);
        StoreIntsKeepsOtherKeys(model, CursorKey(id), DeviceEnd(env, id, FirstFrom(env, cursor), model).stores, other);
      }
      if d.next.Continue? {
        assert forall x :: x in ids[1..] ==> x in ids;
        DevicesLoopFrame(env, ids[1..], d.model, written + d.batches, other);
      }
    }
  }

  /** In a traced state, the cursor stored last reads back as the second before the window the loop would query next. */
  lemma LastStoreBeforeNext(env: Setting, id: int, from0: int, m0: StoreModel, f: Windows)
    requires Spans(env, from0, f) && WindowStores(id, m0, f)
    requires m0.FileModel? && FilePath(m0.directory, CursorKey(id)) !in m0.unwritable
    requires |f.stores| > 0 && f.stores[|f.stores| - 1] != 0
    ensures ParseCursor(LoadFrom(f.model, CursorKey(id))) == At(f.from - 1)
  {
    var k := |f.requests| - 1;
    assert f.stores[k] == f.requests[k].1 == from0 + k * env.span + (env.span - 1);
    NextMultiple(k, env.span);
    LoadAfterStoreInts(m0, CursorKey(id), f.stores);
  }

  /**
   * After a device's windows, its stored cursor is the end of the last one,
   * so the next run's first window for it starts where this run stopped
   * (unless that end is 0, which reads back as no cursor).
   */
  lemma NextRunResumes(env: Setting, id: int, from0: int, m0: StoreModel)
    requires from0 + (env.span - 1) <= env.now
    requires m0.FileModel? && FilePath(m0.directory, CursorKey(id)) !in m0.unwritable
    ensures var f := DeviceEnd(env, id, from0, m0);
      |f.stores| > 0 && f.stores[|f.stores| - 1] != 0 ==>
        var cursor := ParseCursor(LoadFrom(f.model, CursorKey(id)));
        !cursor.Unreadable? && FirstFrom(env, cursor) == f.from
  {
    var f := DeviceEnd(env, id, from0, m0);
    DeviceEndTraced(env, id, from0, m0);
    if |f.stores| > 0 && f.stores[|f.stores| - 1] != 0 {
      LastStoreBeforeNext(env, id, from0, m0, f);
    }
  }

  /** The devices' loop ends with exit code 0 or an exception, never with 1. */
  lemma {:induction false} DevicesLoopOutcome(env: Setting, ids: seq<int>, model: StoreModel, written: seq<seq<Point>>)
    ensures DevicesLoop(env, ids, model, written).outcome in {Exit(0), Thrown}
    decreases |ids|
  {
    if ids != [] {
      var d := DeviceStep(env, ids[0], model);
      if d.next.Continue? {
        DevicesLoopOutcome(env, ids[1..], d.model, written + d.batches);
      }
    }
  }

  /**
   * A run ends with exit code 1 exactly when the sections cannot be listed,
   * and then stores and writes nothing.
   */
  lemma ConsumptionRunExit1(client: HCClient, model: StoreModel, ids: seq<int>, start: int, span: int,
                            maxCalls: int, now: int)
    ensures var run := ConsumptionRun(client, model, ids, start, span, maxCalls, now);
      && (run.outcome == Exit(1) <==> client.controller.sections.None?)
      && (client.controller.sections.None? ==> run.model == model && run.batches == [])
  {
    if client.controller.sections.Some? {
      DevicesLoopOutcome(ClientSetting(client, start, span, maxCalls, now), ids, model, []);
    }
  }
}
