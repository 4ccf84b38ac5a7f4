/**
 * `log:events`: pages through the controller's event log, newest page
 * first from the saved cursor, and writes one point per device property
 * change it has not seen before.
 *
 * The run is specified by `EventsRun`, which threads a `Pager` state
 * through `PageStep` once per page; the `Execute` method is proved to end in
 * that state, and the properties of the pager are lemmas about `PagerLoop`.
 */
module LogEvents {
  import opened Values
  import opened Api
  import opened Points
  import opened Reference
  import opened CursorStore
  import opened HCClientModel
  import opened Runs

  const CursorKey: string := "events"

  // ---------------------------------------------------------------------------
  // Point builder

  /**
   * The property and value an event reports: a `DEVICE_EVENT` carrying a
   * `DevicePropertyUpdatedEvent`, or a `DEVICE_PROPERTY_CHANGED`.
   */
  function Change(e: Event): (c: Option<(string, Value)>)
    ensures c.Some? <==>
      (e.kind == "DEVICE_EVENT" && e.inner.Some? && e.inner.value.kind == "DevicePropertyUpdatedEvent")
      || e.kind == "DEVICE_PROPERTY_CHANGED"
    ensures c.Some? && e.kind == "DEVICE_EVENT" ==> c.value == (e.inner.value.property, e.inner.value.newValue)
    ensures c.Some? && e.kind != "DEVICE_EVENT" ==> c.value == (e.propertyName, e.newValue)
  {
    if e.kind == "DEVICE_EVENT" && e.inner.Some? && e.inner.value.kind == "DevicePropertyUpdatedEvent" then
      Some((e.inner.value.property, e.inner.value.newValue))
    else if e.kind == "DEVICE_PROPERTY_CHANGED" then
      Some((e.propertyName, e.newValue))
    else
      None
  }

  predicate Recognized(e: Event) {
    Change(e).Some?
  }

  const EventTagKeys: seq<string> :=
    ["device_id", "device_name", "device_type", "room_name", "room_id", "section_name", "section_id"]

  /**
   * `createInfluxPoint`: none for an event that reports no property change;
   * otherwise a `panels.event.<deviceType>` point with the seven tags, one
   * field named by the property holding the coerced value, and the event's
   * timestamp. An unknown device gives a null `device_name` and `'None'` for
   * the location tags.
   */
  function CreatePoint(e: Event, devices: map<int, Device>, rooms: map<int, Room>, sections: map<int, Section>): (p: Option<Point>)
    ensures p.Some? <==> Recognized(e)
    ensures p.Some? ==>
      && p.value.measurement == "panels.event." + e.deviceType
      && p.value.value == None
      && p.value.timestamp == e.timestamp
      && p.value.fields == [(Change(e).value.0, Coerce(Change(e).value.1))]
      && Keys(p.value.tags) == EventTagKeys
      && p.value.tags[..3] == [("device_id", Int(e.deviceID)), ("device_name", DeviceName(DeviceOf(devices, e.deviceID))), ("device_type", Str(e.deviceType))]
      && p.value.tags[3..] == LocationTags(DeviceOf(devices, e.deviceID), rooms, sections)
  {
    match Change(e)
    case None => None
    case Some((property, value)) =>
      var device := DeviceOf(devices, e.deviceID);
      var tags := [("device_id", Int(e.deviceID)), ("device_name", DeviceName(device)), ("device_type", Str(e.deviceType))]
        + LocationTags(device, rooms, sections);
      assert tags[..3] + tags[3..] == tags;
      Some(Point("panels.event." + e.deviceType, None, tags, [(property, Coerce(value))], e.timestamp))
  }

  /**
   * An unknown device, a device with no room, or a room id the controller
   * does not list, gets `'None'` for the room and the section tags; the
   * field value is never a boolean or `"true"`/`"false"`.
   */
  lemma CreatePointSentinels(e: Event, devices: map<int, Device>, rooms: map<int, Room>, sections: map<int, Section>)
    requires Recognized(e)
    requires e.deviceID !in devices || devices[e.deviceID].roomID.None? || devices[e.deviceID].roomID.value !in rooms
    ensures var p := CreatePoint(e, devices, rooms, sections).value;
      && p.tags[3..] == [("room_name", NoneTag), ("room_id", NoneTag), ("section_name", NoneTag), ("section_id", NoneTag)]
      && !IsBoolLike(p.fields[0].1)
  {
    LocationSentinels(DeviceOf(devices, e.deviceID), rooms, sections);
  }

  // ---------------------------------------------------------------------------
  // The progress bar

  /**
   * `calculateProgressbarSteps`: the number of pages between the cursor and
   * the newest event, capped by the call budget, at least 1. PHP's `/`
   * throws on a zero limit; the command is then `Thrown`.
   */
  function ProgressSteps(lastEventId: int, saved: Option<int>, limit: int, maxCalls: int): (steps: int)
    requires limit != 0
    ensures steps >= 1
    ensures maxCalls >= 1 ==> steps <= maxCalls
    ensures 1 <= TruncDiv(lastEventId - saved.GetOr(0), limit) <= maxCalls ==>
      steps == TruncDiv(lastEventId - saved.GetOr(0), limit)
    ensures TruncDiv(lastEventId - saved.GetOr(0), limit) > maxCalls ==> steps == if maxCalls >= 1 then maxCalls else 1
    ensures TruncDiv(lastEventId - saved.GetOr(0), limit) < 1 ==> steps == 1
  {
    var eventSteps := TruncDiv(lastEventId - saved.GetOr(0), limit);
    var steps := if eventSteps > maxCalls then maxCalls else eventSteps;
    if steps < 1 then 1 else steps
  }

  /**
   * The bar grows with the newest event id and shrinks as the saved cursor
   * advances, for a positive limit.
   */
  lemma ProgressStepsMonotone(lastEventId1: int, lastEventId2: int, saved1: Option<int>, saved2: Option<int>, limit: int, maxCalls: int)
    requires limit > 0
    requires lastEventId1 - saved1.GetOr(0) <= lastEventId2 - saved2.GetOr(0)
    ensures ProgressSteps(lastEventId1, saved1, limit, maxCalls) <= ProgressSteps(lastEventId2, saved2, limit, maxCalls)
  {
    TruncDivMonotone(lastEventId1 - saved1.GetOr(0), lastEventId2 - saved2.GetOr(0), limit);
  }

  // ---------------------------------------------------------------------------
  // One page

  /**
   * `$currentEventId <= $lastSavedEventId`. An absent cursor is PHP null,
   * which an int compares with as `false`: only id 0 is at or below it.
   */
  predicate SeenBefore(id: int, saved: Option<int>) {
    match saved
    case None => id == 0
    case Some(c) => id <= c
  }

  /**
   * What stays fixed during the paging loop; `pages` is the controller's
   * answer to `panelsEvent('id', $limit, $startFrom)` for each `$startFrom`.
   */
  datatype Context = Context(
    devices: map<int, Device>,
    rooms: map<int, Room>,
    sections: map<int, Section>,
    lastEventId: int,
    saved: Option<int>,
    limit: int,
    pages: int -> seq<Event>)

  /** An event that becomes a point: not seen before, and reporting a change. */
  predicate Eligible(ctx: Context, e: Event) {
    !SeenBefore(e.id, ctx.saved) && Recognized(e)
  }

  /** The point, if any, the `foreach` body adds for one event. */
  function PointOf(ctx: Context, e: Event): (pts: seq<Point>)
    ensures |pts| <= 1
    ensures |pts| == 1 <==> Eligible(ctx, e)
    ensures |pts| == 1 ==> Some(pts[0]) == CreatePoint(e, ctx.devices, ctx.rooms, ctx.sections)
  {
    if SeenBefore(e.id, ctx.saved) then []
    else
      var p := CreatePoint(e, ctx.devices, ctx.rooms, ctx.sections);
      if p.Some? then [p.value] else []
  }

  /** The points a page (already reversed) yields, in order. */
  function BatchPoints(ctx: Context, events: seq<Event>): seq<Point>
  {
    if events == [] then []
    else BatchPoints(ctx, events[..|events| - 1]) + PointOf(ctx, events[|events| - 1])
  }

  /** A page yields at most one point per event. */
  lemma {:induction false} BatchPointsAtMost(ctx: Context, events: seq<Event>)
    ensures |BatchPoints(ctx, events)| <= |events|
  {
    if events != [] {
      BatchPointsAtMost(ctx, events[..|events| - 1]);
    }
  }

  /**
   * Every point of a page comes from an event of that page that is not at
   * or below the cursor loaded at the start of the run.
   */
  lemma {:induction false} BatchPointsSources(ctx: Context, events: seq<Event>, j: int)
    requires 0 <= j < |BatchPoints(ctx, events)|
    ensures exists i :: (0 <= i < |events| && Eligible(ctx, events[i])
      && CreatePoint(events[i], ctx.devices, ctx.rooms, ctx.sections) == Some(BatchPoints(ctx, events)[j]))
  {
    var n := |events| - 1;
    var init := events[..n];
    if j < |BatchPoints(ctx, init)| {
      BatchPointsSources(ctx, init, j);
      var i :| 0 <= i < |init| && Eligible(ctx, init[i])
        && CreatePoint(init[i], ctx.devices, ctx.rooms, ctx.sections) == Some(BatchPoints(ctx, init)[j]);
      assert events[i] == init[i];
    } else {
      assert BatchPoints(ctx, events)[j] == PointOf(ctx, events[n])[0];
    }
  }

  /** A page whose every event is at or below the cursor yields no point. */
  lemma {:induction false} SeenPageYieldsNothing(ctx: Context, events: seq<Event>)
    requires forall i :: 0 <= i < |events| ==> SeenBefore(events[i].id, ctx.saved)
    ensures BatchPoints(ctx, events) == []
  {
    if events != [] {
      var n := |events| - 1;
      assert forall i :: 0 <= i < n ==> events[..n][i] == events[i];
      SeenPageYieldsNothing(ctx, events[..n]);
    }
  }

  /** `array_reverse`. */
  function Reverse<T>(s: seq<T>): (r: seq<T>)
    ensures |r| == |s|
    ensures forall i :: 0 <= i < |s| ==> r[i] == s[|s| - 1 - i]
  {
    if s == [] then [] else Reverse(s[1..]) + [s[0]]
  }

  predicate HasId(events: seq<Event>, id: int) {
    exists i :: 0 <= i < |events| && events[i].id == id
  }

  /** Reversing a page keeps its event ids. */
  lemma ReverseKeeps(events: seq<Event>, id: int)
    ensures HasId(Reverse(events), id) <==> HasId(events, id)
  {
    var r := Reverse(events);
    if HasId(events, id) {
      var i :| 0 <= i < |events| && events[i].id == id;
      assert r[|events| - 1 - i] == events[i];
    }
    if HasId(r, id) {
      var i :| 0 <= i < |r| && r[i].id == id;
      assert events[|events| - 1 - i] == r[i];
    }
  }

  /** `panelsEvent('id', $limit, $startFrom)`. */
  function Page(client: HCClient, limit: int, startFrom: int): seq<Event> {
    client.PanelsEvent("id", Some(limit), Some(startFrom), None, None)
  }

  /** The pages of `limit` events the client serves. */
  function PagesOf(client: HCClient, limit: int): int -> seq<Event> {
    startFrom => Page(client, limit, startFrom)
  }

  /** `panelsEvent('id', 1)`: the newest event, if any. */
  function Probe(client: HCClient): seq<Event> {
    client.PanelsEvent("id", Some(1), None, None, None)
  }

  /**
   * The cursor a page stores: its own `startFrom` when empty, else the id of
   * the event the controller lists first, which is the last one visited once
   * the page is reversed.
   */
  function StoredCursor(events: seq<Event>, startFrom: int): int {
    if events == [] then startFrom else events[0].id
  }

  /** The paging loop's state: the PHP locals, plus logs of what was requested, stored and written. */
  datatype Pager = Pager(
    startFrom: int,
    callsLeft: int,
    stop: bool,
    loaded: int,
    inserted: int,
    requests: seq<int>,
    stores: seq<int>,
    batches: seq<seq<Point>>,
    model: StoreModel)

  /** The bookkeeping before the page is looked at: one call spent, the next position, the events counted. */
  function Requested(ctx: Context, s: Pager, count: nat): Pager {
    s.(
      callsLeft := s.callsLeft - 1,
      startFrom := s.startFrom + ctx.limit,
      loaded := s.loaded + count,
      requests := s.requests + [s.startFrom])
  }

  /** An empty page: its own position becomes the cursor (`continue`). */
  function EmptyPage(ctx: Context, s: Pager): Pager {
    Requested(ctx, s, 0).(
      stores := s.stores + [s.startFrom],
      model := StoredIn(s.model, CursorKey, IntToString(s.startFrom)))
  }

  /**
   * A non-empty page, given the state `r` after the bookkeeping: its points
   * are written when there are any, the snapshot id raises the stop flag,
   * and the last id visited becomes the cursor.
   */
  function PageEvents(ctx: Context, r: Pager, events: seq<Event>): (t: Pager)
    requires events != []
    ensures t.startFrom == r.startFrom && t.callsLeft == r.callsLeft && t.loaded == r.loaded
    ensures t.requests == r.requests && |t.batches| >= |r.batches|
  {
    var rev := Reverse(events);
    var points := BatchPoints(ctx, rev);
    var current := rev[|rev| - 1].id;
    r.(
      stop := r.stop || HasId(rev, ctx.lastEventId),
      inserted := r.inserted + |points|,
      batches := if |points| > 0 then r.batches + [points] else r.batches,
      stores := r.stores + [current],
      model := StoredIn(r.model, CursorKey, IntToString(current)))
  }

  /**
   * One iteration of the `while` loop: one call spent, the position moved on
   * by `limit`, the page's events counted; an empty page writes nothing.
   */
  function PageStep(ctx: Context, s: Pager): (t: Pager)
    ensures t.callsLeft == s.callsLeft - 1 && t.startFrom == s.startFrom + ctx.limit
    ensures t.loaded == s.loaded + |ctx.pages(s.startFrom)|
    ensures ctx.pages(s.startFrom) == [] ==> t.stop == s.stop && t.inserted == s.inserted && t.batches == s.batches
  {
    var events := ctx.pages(s.startFrom);
    if |events| == 0 then EmptyPage(ctx, s)
    else PageEvents(ctx, Requested(ctx, s, |events|), events)
  }

  /** `while ($maxCalls > 0 && !$break)`. */
  function PagerLoop(ctx: Context, s: Pager): Pager
    decreases if s.callsLeft > 0 then s.callsLeft else 0
  {
    if s.callsLeft > 0 && !s.stop then PagerLoop(ctx, PageStep(ctx, s)) else s
  }

  // ---------------------------------------------------------------------------
  // What the paging loop does, page by page

  /** The points of each requested page that yields any, in request order. */
  function PageBatches(ctx: Context, requests: seq<int>): seq<seq<Point>> {
    if requests == [] then []
    else
      var points := BatchPoints(ctx, Reverse(ctx.pages(requests[|requests| - 1])));
      PageBatches(ctx, requests[..|requests| - 1]) + (if |points| > 0 then [points] else [])
  }

  /** The number of events the requested pages hold. */
  function PagesLoaded(ctx: Context, requests: seq<int>): nat {
    if requests == [] then 0
    else PagesLoaded(ctx, requests[..|requests| - 1]) + |ctx.pages(requests[|requests| - 1])|
  }

  /** The number of points the requested pages yield. */
  function PagesInserted(ctx: Context, requests: seq<int>): nat {
    if requests == [] then 0
    else
      PagesInserted(ctx, requests[..|requests| - 1])
        + |BatchPoints(ctx, Reverse(ctx.pages(requests[|requests| - 1])))|
  }

  /** The pages requested: from the start position on, `limit` apart, at most `maxCalls` of them. */
  ghost predicate Positions(ctx: Context, maxCalls: int, s: Pager) {
    var n := |s.requests|;
    && s.callsLeft == maxCalls - n
    && (n == 0 || n <= maxCalls)
    && (forall k :: 0 <= k < n ==> s.requests[k] == StartPosition(ctx.saved, ctx.limit) + k * ctx.limit)
    && s.startFrom == StartPosition(ctx.saved, ctx.limit) + n * ctx.limit
  }

  /** Only the last requested page may hold the newest event, and the stop flag says whether it does. */
  ghost predicate StopsAtNewest(ctx: Context, s: Pager) {
    var n := |s.requests|;
    && (forall k :: 0 <= k < n - 1 ==> !HasId(ctx.pages(s.requests[k]), ctx.lastEventId))
    && (s.stop <==> n > 0 && HasId(ctx.pages(s.requests[n - 1]), ctx.lastEventId))
  }

  /** One cursor stored per requested page. */
  ghost predicate CursorLog(ctx: Context, s: Pager) {
    && |s.stores| == |s.requests|
    && (forall k :: 0 <= k < |s.requests| ==>
          s.stores[k] == StoredCursor(ctx.pages(s.requests[k]), s.requests[k]))
  }

  /** One cursor stored per requested page, and the store holding them in order. */
  ghost predicate Stored(ctx: Context, m0: StoreModel, s: Pager) {
    CursorLog(ctx, s) && s.model == StoreInts(m0, CursorKey, s.stores)
  }

  /** The batches written and the totals counted, page by page. */
  ghost predicate Written(ctx: Context, s: Pager) {
    && s.batches == PageBatches(ctx, s.requests)
    && s.loaded == PagesLoaded(ctx, s.requests)
    && s.inserted == PagesInserted(ctx, s.requests)
  }

  /** A state the loop reaches from `InitialPager(ctx.saved, ctx.limit, maxCalls, m0)`. */
  ghost predicate Traced(ctx: Context, maxCalls: int, m0: StoreModel, s: Pager) {
    Positions(ctx, maxCalls, s) && StopsAtNewest(ctx, s) && Stored(ctx, m0, s) && Written(ctx, s)
  }

  lemma InitialTraced(ctx: Context, maxCalls: int, m0: StoreModel)
    ensures Traced(ctx, maxCalls, m0, InitialPager(ctx.saved, ctx.limit, maxCalls, m0))
  {
  }

  /** `t` has requested the page at `s.startFrom` and moved on. */
  ghost predicate Moves(ctx: Context, s: Pager, t: Pager) {
    && t.requests == s.requests + [s.startFrom]
    && t.callsLeft == s.callsLeft - 1
    && t.startFrom == s.startFrom + ctx.limit
  }

  /** `t` has raised the stop flag if the page holds the newest event. */
  ghost predicate StopStep(ctx: Context, events: seq<Event>, s: Pager, t: Pager) {
    t.stop == (s.stop || HasId(events, ctx.lastEventId))
  }

  /** `t` has stored the page's cursor. */
  ghost predicate StoreStep(events: seq<Event>, s: Pager, t: Pager) {
    var c := StoredCursor(events, s.startFrom);
    t.stores == s.stores + [c] && t.model == StoredIn(s.model, CursorKey, IntToString(c))
  }

  /** `t` has written the page's points, if any, and counted its events and points. */
  ghost predicate WriteStep(ctx: Context, events: seq<Event>, s: Pager, t: Pager) {
    var points := BatchPoints(ctx, Reverse(events));
    && t.batches == s.batches + (if |points| > 0 then [points] else [])
    && t.loaded == s.loaded + |events|
    && t.inserted == s.inserted + |points|
  }

  /** `t` is `s` after handling the page at `s.startFrom`. */
  ghost predicate Advances(ctx: Context, s: Pager, t: Pager) {
    var events := ctx.pages(s.startFrom);
    Moves(ctx, s, t) && StopStep(ctx, events, s, t) && StoreStep(events, s, t) && WriteStep(ctx, events, s, t)
  }

  /** What one step adds to the logs. */
  lemma StepAdvances(ctx: Context, s: Pager)
    ensures Advances(ctx, s, PageStep(ctx, s))
  {
    var events := ctx.pages(s.startFrom);
    ReverseKeeps(events, ctx.lastEventId);
    if events != [] {
      assert Reverse(events)[|events| - 1] == events[0];
    }
  }

  lemma StepPositions(ctx: Context, maxCalls: int, s: Pager, t: Pager)
    requires Positions(ctx, maxCalls, s) && s.callsLeft > 0 && Moves(ctx, s, t)
    ensures Positions(ctx, maxCalls, t)
  {
    var n := |s.requests|;
    assert n * ctx.limit + ctx.limit == (n + 1) * ctx.limit;
    assert forall k :: 0 <= k < n ==> t.requests[k] == s.requests[k];
  }

  lemma StepStopsAtNewest(ctx: Context, s: Pager, t: Pager)
    requires StopsAtNewest(ctx, s) && !s.stop && Moves(ctx, s, t)
    requires StopStep(ctx, ctx.pages(s.startFrom), s, t)
    ensures StopsAtNewest(ctx, t)
  {
    assert forall k :: 0 <= k < |s.requests| ==> t.requests[k] == s.requests[k];
  }

  lemma StepStored(ctx: Context, m0: StoreModel, s: Pager, t: Pager)
    requires Stored(ctx, m0, s) && Moves(ctx, s, t)
    requires StoreStep(ctx.pages(s.startFrom), s, t)
    ensures Stored(ctx, m0, t)
  {
    assert forall k :: 0 <= k < |s.requests| ==> t.requests[k] == s.requests[k];
    assert t.stores[..|s.stores|] == s.stores;
  }

  lemma StepWritten(ctx: Context, s: Pager, t: Pager)
    requires Written(ctx, s) && Moves(ctx, s, t)
    requires WriteStep(ctx, ctx.pages(s.startFrom), s, t)
    ensures Written(ctx, t)
  {
    assert t.requests[..|s.requests|] == s.requests;
  }

  /** The loop keeps `Traced` and ends with the budget spent or the newest event reached. */
  lemma {:induction false} PagerLoopTraced(ctx: Context, maxCalls: int, m0: StoreModel, s: Pager)
    requires Traced(ctx, maxCalls, m0, s)
    ensures var f := PagerLoop(ctx, s);
      Traced(ctx, maxCalls, m0, f) && (f.callsLeft <= 0 || f.stop)
    decreases if s.callsLeft > 0 then s.callsLeft else 0
  {
    if s.callsLeft > 0 && !s.stop {
      var t := PageStep(ctx, s);
      StepAdvances(ctx, s);
      StepPositions(ctx, maxCalls, s, t);
      StepStopsAtNewest(ctx, s, t);
      StepStored(ctx, m0, s, t);
      StepWritten(ctx, s, t);
      PagerLoopTraced(ctx, maxCalls, m0, t);
    }
  }

  // ---------------------------------------------------------------------------
  // The whole run

  function ClientDevices(client: HCClient): map<int, Device> {
    IndexById(ListOf(client.controller.devices), DeviceId)
  }

  function ClientRooms(client: HCClient): map<int, Room> {
    IndexById(ListOf(client.controller.rooms), RoomId)
  }

  /** `$lastSavedEventId ? $lastSavedEventId + $limit : $limit`. */
  function StartPosition(saved: Option<int>, limit: int): int {
    if saved.Some? then saved.value + limit else limit
  }

  function SavedId(c: Cursor): Option<int> {
    if c.At? then Some(c.n) else None
  }

  function RunContext(client: HCClient, lastEventId: int, saved: Option<int>, limit: int): Context
    requires client.controller.sections.Some?
  {
    Context(ClientDevices(client), ClientRooms(client), client.controller.sections.value, lastEventId, saved, limit,
      PagesOf(client, limit))
  }

  function InitialPager(saved: Option<int>, limit: int, maxCalls: int, model: StoreModel): Pager {
    Pager(StartPosition(saved, limit), maxCalls, false, 0, 0, [], [], [], model)
  }

  /**
   * The run gets to the paging loop: the sections are listed, the controller
   * has an event, the stored cursor is an integer or absent, and `$limit` is
   * not 0 (the progress bar divides by it).
   */
  predicate ReachesLoop(client: HCClient, model: StoreModel, limit: int) {
    && client.controller.sections.Some?
    && |Probe(client)| > 0
    && !ParseCursor(LoadFrom(model, CursorKey)).Unreadable?
    && limit != 0
  }

  /** The context of the paging loop: the newest event id and the cursor loaded at the start. */
  function LoopContext(client: HCClient, model: StoreModel, limit: int): Context
    requires ReachesLoop(client, model, limit)
  {
    RunContext(client, Probe(client)[0].id, SavedId(ParseCursor(LoadFrom(model, CursorKey))), limit)
  }

  /** The state the paging loop ends in, from the cursor loaded at the start. */
  function LoopEnd(ctx: Context, maxCalls: int, m0: StoreModel): Pager {
    PagerLoop(ctx, InitialPager(ctx.saved, ctx.limit, maxCalls, m0))
  }

  /** `execute`, from the store it starts with. */
  function EventsRun(client: HCClient, model: StoreModel, limit: int, maxCalls: int): RunResult
  {
    if ReachesLoop(client, model, limit) then
      var final := LoopEnd(LoopContext(client, model, limit), maxCalls, model);
      RunResult(Exit(0), final.model, final.batches)
    else if client.controller.sections.None? then RunResult(Exit(1), model, [])
    else if |Probe(client)| == 0 then RunResult(Exit(0), model, [])
    else RunResult(Thrown, model, [])
  }

  /** Extending a prefix of a reversed page by one event adds that event's points. */
  lemma PrefixPoints(ctx: Context, rev: seq<Event>, i: int)
    requires 0 <= i < |rev|
    ensures BatchPoints(ctx, rev[..i + 1]) == BatchPoints(ctx, rev[..i]) + PointOf(ctx, rev[i])
  {
    assert rev[..i + 1][..i] == rev[..i];
  }

  /** Extending a prefix of a reversed page by one event adds that event's id. */
  lemma PrefixHasId(rev: seq<Event>, i: int, id: int)
    requires 0 <= i < |rev|
    ensures HasId(rev[..i + 1], id) <==> HasId(rev[..i], id) || rev[i].id == id
  {
    var p, q := rev[..i], rev[..i + 1];
    if HasId(q, id) {
      var k :| 0 <= k < i + 1 && q[k].id == id;
      if k < i {
        assert p[k] == q[k];
      }
    }
    if HasId(p, id) {
      var k :| 0 <= k < i && p[k].id == id;
      assert q[k] == p[k];
    }
  }

  /**
   * The `foreach` over a reversed page: the points of the events not seen
   * before, whether the newest event of the run is among them, and the last
   * event id visited.
   */
  method BatchOf(ctx: Context, rev: seq<Event>, currentEventId: Option<int>)
    returns (points: seq<Point>, sawLast: bool, current: Option<int>)
    ensures points == BatchPoints(ctx, rev)
    ensures sawLast == HasId(rev, ctx.lastEventId)
    ensures current == if rev == [] then currentEventId else Some(rev[|rev| - 1].id)
  {
    points := [];
    sawLast := false;
    current := currentEventId;
    var i := 0;
    while i < |rev|
      invariant 0 <= i <= |rev|
      invariant points == BatchPoints(ctx, rev[..i])
      invariant sawLast == HasId(rev[..i], ctx.lastEventId)
      invariant current == if i == 0 then currentEventId else Some(rev[i - 1].id)
    {
      PrefixPoints(ctx, rev, i);
      PrefixHasId(rev, i, ctx.lastEventId);
      current := Some(rev[i].id);
      if rev[i].id == ctx.lastEventId {
        sawLast := true;
      }
      if !SeenBefore(rev[i].id, ctx.saved) {
        var point := CreatePoint(rev[i], ctx.devices, ctx.rooms, ctx.sections);
        if point.Some? {
          points := points + [point.value];
        }
      }
      i := i + 1;
    }
    assert rev[..i] == rev;
  }

  /** The PHP locals of the paging loop agree with the pager state. */
  ghost predicate Mirrors(s: Pager, startFrom: int, calls: int, halt: bool, totalLoaded: int, totalInserted: int) {
    s.startFrom == startFrom && s.callsLeft == calls && s.stop == halt
      && s.loaded == totalLoaded && s.inserted == totalInserted
  }

  /** The rest of an iteration for a non-empty page. */
  method ImportEvents(ctx: Context, storage: Storage, sink: Sink, events: seq<Event>,
                      currentEventId: Option<int>, totalInserted: int, ghost s: Pager, ghost written: seq<seq<Point>>)
    returns (halt: bool, currentEventId': Option<int>, totalInserted': int, ghost t: Pager)
    requires events != [] && events == ctx.pages(s.startFrom)
    requires !s.stop && s.inserted == totalInserted && s.model == storage.Model()
    requires sink.written == written + s.batches
    modifies storage.Repr(), sink
    ensures t == PageStep(ctx, s)
    ensures halt == t.stop && totalInserted' == t.inserted && storage.Model() == t.model
    ensures sink.written == written + t.batches
  {
    var rev := Reverse(events);
    var points;
    points, halt, currentEventId' := BatchOf(ctx, rev, currentEventId);

    if |points| > 0 {
      sink.WritePoints(points);
    }
    totalInserted' := totalInserted + |points|;

    if currentEventId'.Some? {
      var _ := storage.Store(CursorKey, IntToString(currentEventId'.value));
    }
    ghost var r := Requested(ctx, s, |events|);
    t := PageEvents(ctx, r, events);
    assert |points| > 0 ==> sink.written == written + (r.batches + [points]);
  }

  /** An empty page: `$currentStartFrom` is stored and the loop moves on. */
  method SkipPage(ctx: Context, storage: Storage, startFrom: int, ghost s: Pager) returns (ghost t: Pager)
    requires ctx.pages(startFrom) == [] && s.startFrom == startFrom && s.model == storage.Model()
    modifies storage.Repr()
    ensures t == PageStep(ctx, s) && t.model == storage.Model()
  {
    var _ := storage.Store(CursorKey, IntToString(startFrom));
    t := EmptyPage(ctx, s);
  }

  /** One iteration of the `while` loop. */
  method ImportPage(ctx: Context, storage: Storage, sink: Sink,
                    startFrom: int, calls: int, currentEventId: Option<int>, totalLoaded: int, totalInserted: int,
                    ghost s: Pager, ghost written: seq<seq<Point>>)
    returns (startFrom': int, calls': int, halt: bool, currentEventId': Option<int>, totalLoaded': int,
             totalInserted': int, ghost t: Pager)
    requires Mirrors(s, startFrom, calls, false, totalLoaded, totalInserted) && s.model == storage.Model()
    requires sink.written == written + s.batches
    modifies storage.Repr(), sink
    ensures t == PageStep(ctx, s)
    ensures Mirrors(t, startFrom', calls', halt, totalLoaded', totalInserted') && t.model == storage.Model()
    ensures sink.written == written + t.batches
  {
    calls' := calls - 1;
    var events := ctx.pages(startFrom);
    startFrom' := startFrom + ctx.limit;
    totalLoaded' := totalLoaded + |events|;
    if |events| == 0 {
      t := SkipPage(ctx, storage, startFrom, s);
      halt, currentEventId', totalInserted' := false, currentEventId, totalInserted;
    } else {
      halt, currentEventId', totalInserted', t :=
        ImportEvents(ctx, storage, sink, events, currentEventId, totalInserted, s, written);
    }
  }

  /** The `while` loop, from its first iteration to its last. */
  method ImportLoop(ctx: Context, storage: Storage, sink: Sink, startFrom: int, maxCalls: int)
    requires startFrom == StartPosition(ctx.saved, ctx.limit)
    modifies storage.Repr(), sink
    ensures var final := LoopEnd(ctx, maxCalls, old(storage.Model()));
      storage.Model() == final.model && sink.written == old(sink.written) + final.batches
  {
    ghost var pager := InitialPager(ctx.saved, ctx.limit, maxCalls, storage.Model());
    ghost var final := PagerLoop(ctx, pager);
    var startFrom := startFrom;
    var calls := maxCalls;
    var currentEventId: Option<int> := None;
    var halt := false;
    var totalLoaded := 0;
    var totalInserted := 0;
    while calls > 0 && !halt
      invariant Mirrors(pager, startFrom, calls, halt, totalLoaded, totalInserted) && pager.model == storage.Model()
      invariant PagerLoop(ctx, pager) == final
      invariant sink.written == old(sink.written) + pager.batches
      decreases if calls > 0 then calls else 0
    {
      startFrom, calls, halt, currentEventId, totalLoaded, totalInserted, pager :=
        ImportPage(ctx, storage, sink, startFrom, calls, currentEventId, totalLoaded, totalInserted, pager, old(sink.written));
    }
  }

  /** `execute`: the reference data and the newest event id. */
  method Execute(client: HCClient, storage: Storage, sink: Sink, limit: int, maxCalls: int) returns (outcome: Outcome)
    modifies storage.Repr(), sink
    ensures var run := EventsRun(client, old(storage.Model()), limit, maxCalls);
      outcome == run.outcome && storage.Model() == run.model && sink.written == old(sink.written) + run.batches
  {
    var devices := client.Devices();
    var rooms := client.Rooms();
    if client.controller.sections.None? {
      return Exit(1);
    }
    var sections := client.controller.sections.value;

    var lastEvent := Probe(client);
    if |lastEvent| == 0 {
      return Exit(0);
    }
    outcome := ExecuteFrom(client, storage, sink, devices, rooms, sections, lastEvent[0].id, limit, maxCalls);
  }

  /**
   * The cursor loaded, the start position and the progress bar: `ok` is
   * false when the stored text is not an integer or `limit` is 0, and PHP
   * throws.
   */
  method StartPaging(storage: Storage, lastEventId: int, limit: int, maxCalls: int)
    returns (ok: bool, lastSavedEventId: Option<int>, startFrom: int)
    ensures var cursor := ParseCursor(LoadFrom(storage.Model(), CursorKey));
      && ok == (!cursor.Unreadable? && limit != 0)
      && (ok ==> lastSavedEventId == SavedId(cursor) && startFrom == StartPosition(lastSavedEventId, limit))
  {
    var cursor := ParseCursor(storage.Load(CursorKey));
    if cursor.Unreadable? {
      return false, None, 0;
    }
    lastSavedEventId := SavedId(cursor);
    startFrom := if lastSavedEventId.Some? then lastSavedEventId.value + limit else limit;
    if limit == 0 {
      return false, lastSavedEventId, startFrom;
    }
    var steps := ProgressSteps(lastEventId, lastSavedEventId, limit, maxCalls);
    ok := true;
  }

  /** The rest of `execute`: the cursor loaded, the start position, the progress bar and the loop. */
  method ExecuteFrom(client: HCClient, storage: Storage, sink: Sink, devices: map<int, Device>, rooms: map<int, Room>,
                     sections: map<int, Section>, lastEventId: int, limit: int, maxCalls: int) returns (outcome: Outcome)
    requires client.controller.sections == Some(sections) && |Probe(client)| > 0 && lastEventId == Probe(client)[0].id
    requires devices == ClientDevices(client) && rooms == ClientRooms(client)
    modifies storage.Repr(), sink
    ensures var run := EventsRun(client, old(storage.Model()), limit, maxCalls);
      outcome == run.outcome && storage.Model() == run.model && sink.written == old(sink.written) + run.batches
  {
    var ok, lastSavedEventId, startFrom := StartPaging(storage, lastEventId, limit, maxCalls);
    if !ok {
      return Thrown;
    }
    var ctx := Context(devices, rooms, sections, lastEventId, lastSavedEventId, limit, PagesOf(client, limit));
    assert ctx == LoopContext(client, old(storage.Model()), limit);
    ImportLoop(ctx, storage, sink, startFrom, maxCalls);
    outcome := Exit(0);
  }

  // ---------------------------------------------------------------------------
  // Properties of a run

  /** A run that stops before the paging loop stores nothing and writes nothing. */
  lemma EventsRunEarlyExits(client: HCClient, model: StoreModel, limit: int, maxCalls: int)
    ensures var run := EventsRun(client, model, limit, maxCalls);
      && (run.outcome == Exit(1) <==> client.controller.sections.None?)
      && (run.outcome == Thrown <==>
            client.controller.sections.Some? && |Probe(client)| > 0
            && (ParseCursor(LoadFrom(model, CursorKey)).Unreadable? || limit == 0))
      && (client.controller.sections.Some? && |Probe(client)| == 0 ==> run.outcome == Exit(0))
      && (run.outcome == Exit(0) || run.outcome == Exit(1) || run.outcome == Thrown)
      && (!ReachesLoop(client, model, limit) ==> run.model == model && run.batches == [])
  {
  }

  /** The loop's final state is one it reaches from the initial one, with the budget spent or the newest event seen. */
  lemma LoopEndTraced(ctx: Context, maxCalls: int, m0: StoreModel)
    ensures var f := LoopEnd(ctx, maxCalls, m0);
      Traced(ctx, maxCalls, m0, f) && (f.callsLeft <= 0 || f.stop)
  {
    InitialTraced(ctx, maxCalls, m0);
    PagerLoopTraced(ctx, maxCalls, m0, InitialPager(ctx.saved, ctx.limit, maxCalls, m0));
  }

  /**
   * The pages a run requests: `startFrom = cursor + limit` (or `limit`), then
   * every `limit` ids, at most `maxCalls` of them; the run requests fewer only
   * when the last page holds the newest event, and no earlier page holds it.
   */
  lemma LoopPages(ctx: Context, maxCalls: int, m0: StoreModel)
    ensures var f := LoopEnd(ctx, maxCalls, m0);
      var n := |f.requests|;
      && n <= (if maxCalls > 0 then maxCalls else 0)
      && (forall k :: 0 <= k < n ==> f.requests[k] == StartPosition(ctx.saved, ctx.limit) + k * ctx.limit)
      && (n == (if maxCalls > 0 then maxCalls else 0) || (n > 0 && HasId(ctx.pages(f.requests[n - 1]), ctx.lastEventId)))
      && (forall k :: 0 <= k < n - 1 ==> !HasId(ctx.pages(f.requests[k]), ctx.lastEventId))
  {
    LoopEndTraced(ctx, maxCalls, m0);
  }

  /**
   * A run stores one cursor per page, in order: the page's own `startFrom`
   * when it is empty, else the id the controller lists first; the store ends
   * holding them all stored in turn; the batches written are the points of
   * the requested pages, one batch per page that yields any; the counts are
   * the events loaded and the points written.
   */
  lemma LoopStores(ctx: Context, maxCalls: int, m0: StoreModel)
    ensures var f := LoopEnd(ctx, maxCalls, m0);
      && |f.stores| == |f.requests|
      && (forall k :: 0 <= k < |f.requests| ==> f.stores[k] == StoredCursor(ctx.pages(f.requests[k]), f.requests[k]))
      && f.model == StoreInts(m0, CursorKey, f.stores)
      && f.batches == PageBatches(ctx, f.requests)
      && f.loaded == PagesLoaded(ctx, f.requests)
      && f.inserted == PagesInserted(ctx, f.requests)
  {
    LoopEndTraced(ctx, maxCalls, m0);
  }

  /** `p` is the point of an event of `events` that is past the cursor loaded at the start. */
  ghost predicate FromPage(ctx: Context, events: seq<Event>, p: Point) {
    exists i :: 0 <= i < |events| && Eligible(ctx, events[i]) && CreatePoint(events[i], ctx.devices, ctx.rooms, ctx.sections) == Some(p)
  }

  /** Every point of a page comes from one of its events past the cursor loaded at the start. */
  lemma PageSources(ctx: Context, events: seq<Event>, j: int)
    requires 0 <= j < |BatchPoints(ctx, Reverse(events))|
    ensures FromPage(ctx, events, BatchPoints(ctx, Reverse(events))[j])
  {
    var rev := Reverse(events);
    BatchPointsSources(ctx, rev, j);
    var i :| 0 <= i < |rev| && Eligible(ctx, rev[i])
      && CreatePoint(rev[i], ctx.devices, ctx.rooms, ctx.sections) == Some(BatchPoints(ctx, rev)[j]);
    assert rev[i] == events[|events| - 1 - i];
  }

  /** `p` is the point of an event on one of the pages requested. */
  ghost predicate Sourced(ctx: Context, requests: seq<int>, p: Point) {
    exists k :: 0 <= k < |requests| && FromPage(ctx, ctx.pages(requests[k]), p)
  }

  /** The pages' batches, split into those of all pages but the last and the last page's own. */
  lemma PageBatchesLast(ctx: Context, requests: seq<int>)
    requires requests != []
    ensures var n := |requests| - 1; var points := BatchPoints(ctx, Reverse(ctx.pages(requests[n])));
      PageBatches(ctx, requests) == PageBatches(ctx, requests[..n]) + (if |points| > 0 then [points] else [])
  {
  }

  /** No batch of the requested pages is empty: a page without points writes nothing. */
  lemma {:induction false} PageBatchesNonEmpty(ctx: Context, requests: seq<int>, b: int)
    requires 0 <= b < |PageBatches(ctx, requests)|
    ensures |PageBatches(ctx, requests)[b]| > 0
  {
    var n := |requests| - 1;
    PageBatchesLast(ctx, requests);
    if b < |PageBatches(ctx, requests[..n])| {
      PageBatchesNonEmpty(ctx, requests[..n], b);
    }
  }

  /** Each point of a batch of the requested pages comes from one of those pages. */
  lemma {:induction false} PageBatchesSources(ctx: Context, requests: seq<int>, b: int, j: int)
    requires 0 <= b < |PageBatches(ctx, requests)| && 0 <= j < |PageBatches(ctx, requests)[b]|
    ensures Sourced(ctx, requests, PageBatches(ctx, requests)[b][j])
  {
    var n := |requests| - 1;
    var init := PageBatches(ctx, requests[..n]);
    var points := BatchPoints(ctx, Reverse(ctx.pages(requests[n])));
    PageBatchesLast(ctx, requests);
    if b < |init| {
      PageBatchesSources(ctx, requests[..n], b, j);
      var k :| 0 <= k < n && FromPage(ctx, ctx.pages(requests[..n][k]), init[b][j]);
      assert requests[..n][k] == requests[k];
      assert FromPage(ctx, ctx.pages(requests[k]), init[b][j]);
    } else {
      PageSources(ctx, ctx.pages(requests[n]), j);
      assert FromPage(ctx, ctx.pages(requests[n]), points[j]);
    }
  }

  /** `PageBatchesSources` for every batch and point at once. */
  lemma AllSourced(ctx: Context, requests: seq<int>)
    ensures var bs := PageBatches(ctx, requests);
      && (forall b :: 0 <= b < |bs| ==> |bs[b]| > 0)
      && (forall b, j :: 0 <= b < |bs| && 0 <= j < |bs[b]| ==> Sourced(ctx, requests, bs[b][j]))
  {
    var bs := PageBatches(ctx, requests);
    forall b, j | 0 <= b < |bs|
      ensures |bs[b]| > 0
      ensures 0 <= j < |bs[b]| ==> Sourced(ctx, requests, bs[b][j])
    {
      PageBatchesNonEmpty(ctx, requests, b);
      if 0 <= j < |bs[b]| {
        PageBatchesSources(ctx, requests, b, j);
      }
    }
  }

  /**
   * Every point a run writes is the point of an event, on one of the pages it
   * requested, whose id is past the cursor loaded at the start of the run; the
   * snapshot id plays no part in it. No batch written is empty.
   */
  lemma LoopPoints(ctx: Context, maxCalls: int, m0: StoreModel)
    ensures var f := LoopEnd(ctx, maxCalls, m0);
      && (forall b :: 0 <= b < |f.batches| ==> |f.batches[b]| > 0)
      && (forall b, j :: 0 <= b < |f.batches| && 0 <= j < |f.batches[b]| ==> Sourced(ctx, f.requests, f.batches[b][j]))
  {
    LoopStores(ctx, maxCalls, m0);
    AllSourced(ctx, LoopEnd(ctx, maxCalls, m0).requests);
  }

  /** The controller answers a page request with ids in `(startFrom - limit, startFrom]`. */
  ghost predicate PagesBelow(ctx: Context) {
    forall startFrom, i :: 0 <= i < |ctx.pages(startFrom)| ==>
      startFrom - ctx.limit < ctx.pages(startFrom)[i].id <= startFrom
  }

  /** Positions `limit` apart per page: a later page starts at least `limit` higher. */
  lemma {:induction false} Spacing(base: int, limit: int, k: int, l: int)
    requires 0 <= k < l && limit > 0
    ensures base + k * limit + limit <= base + l * limit
    decreases l - k
  {
    assert (l - 1) * limit + limit == l * limit;
    if k < l - 1 {
      Spacing(base, limit, k, l - 1);
    }
  }

  /** Under `PagesBelow`, the cursors of a traced state increase strictly from past the loaded cursor on. */
  lemma TracedCursors(ctx: Context, maxCalls: int, f: Pager)
    requires Positions(ctx, maxCalls, f) && CursorLog(ctx, f) && ctx.limit > 0 && PagesBelow(ctx)
    ensures forall k :: 0 <= k < |f.stores| ==> f.stores[k] > ctx.saved.GetOr(0)
    ensures forall k, l :: 0 <= k < l < |f.stores| ==> f.stores[k] < f.stores[l]
  {
    var base := StartPosition(ctx.saved, ctx.limit);
    forall k | 0 <= k < |f.stores|
      ensures f.requests[k] - ctx.limit < f.stores[k] <= f.requests[k]
    {
      var events := ctx.pages(f.requests[k]);
      if events != [] {
        assert f.requests[k] - ctx.limit < events[0].id <= f.requests[k];
      }
    }
    forall k | 0 < k < |f.stores|
      ensures f.stores[k] > ctx.saved.GetOr(0)
    {
      Spacing(base, ctx.limit, 0, k);
    }
    forall k, l | 0 <= k < l < |f.stores|
      ensures f.stores[k] < f.stores[l]
    {
      Spacing(base, ctx.limit, k, l);
    }
  }

  /**
   * When every page holds ids in `(startFrom - limit, startFrom]`, the
   * cursors a run stores increase strictly and all lie past the cursor it
   * started from, and the next run starts from the last of them.
   */
  lemma LoopCursorAdvances(ctx: Context, maxCalls: int, m0: StoreModel)
    requires ctx.limit > 0 && PagesBelow(ctx)
    ensures var f := LoopEnd(ctx, maxCalls, m0);
      && (forall k :: 0 <= k < |f.stores| ==> f.stores[k] > ctx.saved.GetOr(0))
      && (forall k, l :: 0 <= k < l < |f.stores| ==> f.stores[k] < f.stores[l])
      && (|f.stores| > 0 && m0.FileModel? && FilePath(m0.directory, CursorKey) !in m0.unwritable ==>
            SavedId(ParseCursor(LoadFrom(f.model, CursorKey))).GetOr(0) == f.stores[|f.stores| - 1])
  {
    LoopEndTraced(ctx, maxCalls, m0);
    TracedCursorsLoad(ctx, maxCalls, m0, LoopEnd(ctx, maxCalls, m0));
  }

  /** `TracedCursors` for a traced state, and the next run's cursor is the last one stored. */
  lemma TracedCursorsLoad(ctx: Context, maxCalls: int, m0: StoreModel, f: Pager)
    requires Traced(ctx, maxCalls, m0, f) && ctx.limit > 0 && PagesBelow(ctx)
    ensures forall k :: 0 <= k < |f.stores| ==> f.stores[k] > ctx.saved.GetOr(0)
    ensures forall k, l :: 0 <= k < l < |f.stores| ==> f.stores[k] < f.stores[l]
    ensures |f.stores| > 0 && m0.FileModel? && FilePath(m0.directory, CursorKey) !in m0.unwritable ==>
      SavedId(ParseCursor(LoadFrom(f.model, CursorKey))).GetOr(0) == f.stores[|f.stores| - 1]
  {
    TracedCursors(ctx, maxCalls, f);
    if |f.stores| > 0 && m0.FileModel? && FilePath(m0.directory, CursorKey) !in m0.unwritable {
      LastCursorLoads(m0, f.stores);
    }
  }

  /** After a series of cursor stores to a writable file, the next run's cursor is the last of them. */
  lemma LastCursorLoads(m0: StoreModel, stores: seq<int>)
    requires stores != [] && m0.FileModel? && FilePath(m0.directory, CursorKey) !in m0.unwritable
    ensures SavedId(ParseCursor(LoadFrom(StoreInts(m0, CursorKey, stores), CursorKey))).GetOr(0) == stores[|stores| - 1]
  {
    LoadAfterStoreInts(m0, CursorKey, stores);
  }
}
