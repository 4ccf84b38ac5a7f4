/**
 * `log:refreshStates`: one poll of the controller's change feed from the
 * stored token, the token the controller returns stored back, and one point
 * per change that names a device and carries a field, written in one batch.
 */
module LogRefreshStates {
  import opened Values
  import opened Api
  import opened Points
  import opened Reference
  import opened CursorStore
  import opened HCClientModel
  import opened Runs

  const TokenKey: string := "refreshStates"

  /** The keys of a change that are bookkeeping, not measurements. */
  const Bookkeeping: seq<string> := ["id", "log", "logTemp", "lastBreached"]

  /** `$last`: the stored token, or 1 when nothing is stored. */
  function Token(loaded: Option<string>): string {
    if loaded.Some? then loaded.value else "1"
  }

  // ---------------------------------------------------------------------------
  // Building a point from a change

  /** The `foreach` over a change: every other key, coerced, set in `$fields` in turn. */
  function FieldsOf(change: Record): Record
    decreases |change|
  {
    if change == [] then []
    else
      var fields := FieldsOf(change[..|change| - 1]);
      var (k, v) := change[|change| - 1];
      if k in Bookkeeping then fields else Put(fields, k, Coerce(v))
  }

  /** The entries of a change that are not bookkeeping, in order, each coerced. */
  function Kept(change: Record): (kept: Record)
    ensures |kept| <= |change|
    ensures forall i :: 0 <= i < |kept| ==> kept[i].0 !in Bookkeeping && !IsBoolLike(kept[i].1)
    decreases |change|
  {
    if change == [] then []
    else
      var (k, v) := change[|change| - 1];
      Kept(change[..|change| - 1]) + (if k in Bookkeeping then [] else [(k, Coerce(v))])
  }

  /** Every key `Kept` keeps is a key of the change. */
  lemma {:induction false} KeptKeys(change: Record, k: string)
    requires Lookup(change, k).None?
    ensures Lookup(Kept(change), k).None?
    decreases |change|
  {
    if change != [] {
      var init := change[..|change| - 1];
      assert forall i :: 0 <= i < |init| ==> init[i] == change[i];
      KeptKeys(init, k);
      LookupConcat(Kept(init), if change[|change| - 1].0 in Bookkeeping then [] else [(change[|change| - 1].0, Coerce(change[|change| - 1].1))], k);
    }
  }

  /**
   * For a change with one entry per key, as a decoded JSON object is, the
   * fields are exactly its non-bookkeeping entries in their original order,
   * each passed through `getFieldValue`.
   */
  lemma {:induction false} FieldsOfIsKept(change: Record)
    requires UniqueKeys(change)
    ensures FieldsOf(change) == Kept(change)
    decreases |change|
  {
    if change != [] {
      var init := change[..|change| - 1];
      var (k, v) := change[|change| - 1];
      assert UniqueKeys(init);
      FieldsOfIsKept(init);
      if k !in Bookkeeping {
        assert Lookup(init, k).None?;
        KeptKeys(init, k);
      }
    }
  }

  /** A change gets no field exactly when all its keys are bookkeeping. */
  lemma {:induction false} FieldsOfEmpty(change: Record)
    ensures FieldsOf(change) == [] <==> forall i :: 0 <= i < |change| ==> change[i].0 in Bookkeeping
    decreases |change|
  {
    if change != [] {
      var init := change[..|change| - 1];
      FieldsOfEmpty(init);
      assert forall i :: 0 <= i < |init| ==> init[i] == change[i];
    }
  }

  /** The loop that fills `$fields`. */
  method BuildFields(change: Record) returns (fields: Record)
    ensures fields == FieldsOf(change)
  {
    fields := [];
    var i := 0;
    while i < |change|
      invariant 0 <= i <= |change|
      invariant fields == FieldsOf(change[..i])
    {
      var (k, v) := change[i];
      assert change[..i + 1][..i] == change[..i];
      if k !in Bookkeeping {
        fields := Put(fields, k, Coerce(v));
      }
      i := i + 1;
    }
    assert change[..i] == change;
  }

  /** `device_id`, `device_name`, `device_type`: the device's own values, null for a missing device. */
  function DeviceTags(device: Option<Device>): (tags: Record)
    ensures Keys(tags) == ["device_id", "device_name", "device_type"]
  {
    match device
    case None => [("device_id", Null), ("device_name", Null), ("device_type", Null)]
    case Some(d) => [("device_id", Int(d.id)), ("device_name", Str(d.name)), ("device_type", Str(d.kind))]
  }

  /** `'refreshStates.' . $device['type']`: null concatenates as the empty string. */
  function Measurement(device: Option<Device>): string {
    "refreshStates." + (if device.Some? then device.value.kind else "")
  }

  /**
   * `createInfluxPoint`: none for a change without an `id` or without a
   * field; otherwise the change's fields, stamped with the poll's timestamp.
   */
  function ChangePoint(change: Record, devices: map<int, Device>, rooms: map<int, Room>, sections: map<int, Section>,
                       timestamp: int): (p: Option<Point>)
    ensures p.Some? <==> IsSet(change, "id") && FieldsOf(change) != []
    ensures p.Some? ==> p.value.fields == FieldsOf(change) && p.value.timestamp == timestamp && p.value.value.None?
  {
    if !IsSet(change, "id") then None
    else
      var fields := FieldsOf(change);
      if |fields| == 0 then None
      else
        var device := ChangeDevice(change, devices);
        Some(Point(Measurement(device), None, PointTags(device, rooms, sections), fields, timestamp))
  }

  /**
   * The seven fixed tags of a point: the device's id, name and type, then
   * its room and section, `'None'` where the link is unset or dangling.
   */
  function PointTags(device: Option<Device>, rooms: map<int, Room>, sections: map<int, Section>): Record {
    DeviceTags(device) + LocationTags(device, rooms, sections)
  }

  /** The tag keys are the same seven, in the same order, whatever the device. */
  lemma PointTagsKeys(device: Option<Device>, rooms: map<int, Room>, sections: map<int, Section>)
    ensures Keys(PointTags(device, rooms, sections))
      == ["device_id", "device_name", "device_type", "room_name", "room_id", "section_name", "section_id"]
  {
    LocationSentinels(device, rooms, sections);
    KeysConcat(DeviceTags(device), LocationTags(device, rooms, sections));
  }

  /** A point names the change's device in its measurement and carries its tags. */
  lemma ChangePointShape(change: Record, devices: map<int, Device>, rooms: map<int, Room>, sections: map<int, Section>,
                         timestamp: int)
    requires ChangePoint(change, devices, rooms, sections, timestamp).Some?
    ensures var p := ChangePoint(change, devices, rooms, sections, timestamp).value;
      var device := ChangeDevice(change, devices);
      && p.measurement == Measurement(device)
      && p.tags == PointTags(device, rooms, sections)
      && Keys(p.tags) == ["device_id", "device_name", "device_type", "room_name", "room_id", "section_name", "section_id"]
  {
    PointTagsKeys(ChangeDevice(change, devices), rooms, sections);
  }

  /** `createInfluxPoint`, with its field loop. */
  method CreateInfluxPoint(change: Record, devices: map<int, Device>, rooms: map<int, Room>, sections: map<int, Section>,
                           timestamp: int) returns (p: Option<Point>)
    ensures p == ChangePoint(change, devices, rooms, sections, timestamp)
  {
    if !IsSet(change, "id") {
      return None;
    }
    var device := ChangeDevice(change, devices);
    var fields := BuildFields(change);
    if |fields| == 0 {
      return None;
    }
    p := Some(Point(Measurement(device), None, PointTags(device, rooms, sections), fields, timestamp));
  }

  // ---------------------------------------------------------------------------
  // The run

  /** The points of the changes, in order, for those that yield one. */
  function ChangesPoints(changes: seq<Record>, devices: map<int, Device>, rooms: map<int, Room>,
                         sections: map<int, Section>, timestamp: int): seq<Point>
    decreases |changes|
  {
    if changes == [] then []
    else
      var p := ChangePoint(changes[|changes| - 1], devices, rooms, sections, timestamp);
      ChangesPoints(changes[..|changes| - 1], devices, rooms, sections, timestamp) + (if p.Some? then [p.value] else [])
  }

  /**
   * No more points than changes, every point one change's, all stamped with
   * the poll's timestamp.
   */
  lemma {:induction false} ChangesPointsBound(changes: seq<Record>, devices: map<int, Device>, rooms: map<int, Room>,
                                              sections: map<int, Section>, timestamp: int)
    ensures var points := ChangesPoints(changes, devices, rooms, sections, timestamp);
      && |points| <= |changes|
      && (forall j :: 0 <= j < |points| ==> points[j].timestamp == timestamp)
      && (forall j :: 0 <= j < |points| ==>
            exists i :: 0 <= i < |changes| && ChangePoint(changes[i], devices, rooms, sections, timestamp) == Some(points[j]))
    decreases |changes|
  {
    if changes != [] {
      var init := changes[..|changes| - 1];
      ChangesPointsBound(init, devices, rooms, sections, timestamp);
      var points := ChangesPoints(changes, devices, rooms, sections, timestamp);
      var left := ChangesPoints(init, devices, rooms, sections, timestamp);
      forall j | 0 <= j < |points|
        ensures exists i :: 0 <= i < |changes| && ChangePoint(changes[i], devices, rooms, sections, timestamp) == Some(points[j])
      {
        if j < |left| {
          var i :| 0 <= i < |init| && ChangePoint(init[i], devices, rooms, sections, timestamp) == Some(left[j]);
          assert changes[i] == init[i];
        } else {
          assert ChangePoint(changes[|changes| - 1], devices, rooms, sections, timestamp) == Some(points[j]);
        }
      }
    }
  }

  /** One more change adds its point, if it has one. */
  lemma ChangesPointsStep(changes: seq<Record>, devices: map<int, Device>, rooms: map<int, Room>,
                          sections: map<int, Section>, timestamp: int, i: int)
    requires 0 <= i < |changes|
    ensures var p := ChangePoint(changes[i], devices, rooms, sections, timestamp);
      ChangesPoints(changes[..i + 1], devices, rooms, sections, timestamp)
        == ChangesPoints(changes[..i], devices, rooms, sections, timestamp) + (if p.Some? then [p.value] else [])
  {
    assert changes[..i + 1][..i] == changes[..i];
  }

  /** The loop that collects `$points`. */
  method CollectPoints(changes: seq<Record>, devices: map<int, Device>, rooms: map<int, Room>,
                       sections: map<int, Section>, timestamp: int) returns (points: seq<Point>)
    ensures points == ChangesPoints(changes, devices, rooms, sections, timestamp)
  {
    points := [];
    var i := 0;
    while i < |changes|
      invariant 0 <= i <= |changes|
      invariant points == ChangesPoints(changes[..i], devices, rooms, sections, timestamp)
    {
      ChangesPointsStep(changes, devices, rooms, sections, timestamp, i);
      var point := CreateInfluxPoint(changes[i], devices, rooms, sections, timestamp);
      if point.Some? {
        points := points + [point.value];
      }
      i := i + 1;
    }
    assert changes[..i] == changes;
  }

  /** The token after the poll: the poll's `last`, when set. */
  function StoreLast(model: StoreModel, poll: Poll): StoreModel {
    if poll.last.Some? then StoredIn(model, TokenKey, IntToString(poll.last.value)) else model
  }

  /** `execute`, from the store it starts with. */
  function RefreshRun(client: HCClient, model: StoreModel): RunResult {
    if client.controller.sections.None? then RunResult(Exit(1), model, [])
    else
      var poll := client.RefreshStates(Token(LoadFrom(model, TokenKey)));
      if !HasChanges(poll) then RunResult(Exit(1), model, [])
      else
        var points := ChangesPoints(poll.value.changes.value,
          IndexById(ListOf(client.controller.devices), DeviceId), IndexById(ListOf(client.controller.rooms), RoomId),
          client.controller.sections.value, poll.value.timestamp.GetOr(0));
        RunResult(Exit(0), StoreLast(model, poll.value), if |points| > 0 then [points] else [])
  }

  /** `execute`: the reference data, the token, the poll, the token stored, then one write. */
  method Execute(client: HCClient, storage: Storage, sink: Sink) returns (outcome: Outcome)
    modifies storage.Repr(), sink
    ensures var run := RefreshRun(client, old(storage.Model()));
      outcome == run.outcome && storage.Model() == run.model && sink.written == old(sink.written) + run.batches
  {
    var devices := client.Devices();
    var rooms := client.Rooms();
    if client.controller.sections.None? {
      return Exit(1);
    }
    var sections := client.controller.sections.value;

    var last := storage.Load(TokenKey);
    var token := if last.Some? then last.value else "1";
    var poll := client.RefreshStates(token);
    if !(poll.Some? && poll.value.changes.Some?) {
      return Exit(1);
    }

    var timestamp := poll.value.timestamp.GetOr(0);
    if poll.value.last.Some? {
      var _ := storage.Store(TokenKey, IntToString(poll.value.last.value));
    }

    var points := CollectPoints(poll.value.changes.value, devices, rooms, sections, timestamp);
    if |points| > 0 {
      sink.WritePoints(points);
    }
    outcome := Exit(0);
  }

  // ---------------------------------------------------------------------------
  // Properties of a run

  /**
   * A run ends with exit code 1 exactly when the sections cannot be listed
   * or the poll gives no `changes`, and then stores and writes nothing.
   * Otherwise it stores the poll's `last` when set, and makes at most one
   * write, of a non-empty batch holding no more points than changes, all
   * stamped with the poll's timestamp.
   */
  lemma RefreshRunEffects(client: HCClient, model: StoreModel)
    ensures var run := RefreshRun(client, model);
      && (run.outcome == Exit(1) <==>
            client.controller.sections.None? || !HasChanges(client.RefreshStates(Token(LoadFrom(model, TokenKey)))))
      && (run.outcome == Exit(1) ==> run.model == model && run.batches == [])
      && run.outcome in {Exit(0), Exit(1)}
      && |run.batches| <= 1
      && (forall b: seq<Point> :: b in run.batches ==> b != [])
    ensures var run := RefreshRun(client, model);
      var poll := client.RefreshStates(Token(LoadFrom(model, TokenKey)));
      run.outcome == Exit(0) ==>
        && run.model == StoreLast(model, poll.value)
        && (forall b: seq<Point> :: b in run.batches ==>
              |b| <= |poll.value.changes.value|
              && forall j :: 0 <= j < |b| ==> b[j].timestamp == poll.value.timestamp.GetOr(0))
  {
    if client.controller.sections.Some? {
      var poll := client.RefreshStates(Token(LoadFrom(model, TokenKey)));
      if HasChanges(poll) {
        ChangesPointsBound(poll.value.changes.value,
          IndexById(ListOf(client.controller.devices), DeviceId), IndexById(ListOf(client.controller.rooms), RoomId),
          client.controller.sections.value, poll.value.timestamp.GetOr(0));
      }
    }
  }

  /**
   * The token round trip: with nothing stored the poll starts from 1, and
   * after a run that stored a non-zero `last` in a writable file the next
   * run polls from that `last`.
   */
  lemma TokenRoundTrip(model: StoreModel, poll: Poll)
    ensures LoadFrom(model, TokenKey).None? ==> Token(LoadFrom(model, TokenKey)) == "1"
    ensures model.FileModel? && FilePath(model.directory, TokenKey) !in model.unwritable
            && poll.last.Some? && poll.last.value != 0 ==>
              Token(LoadFrom(StoreLast(model, poll), TokenKey)) == IntToString(poll.last.value)
  {
    if poll.last.Some? {
      LoadAfterStore(model, TokenKey, IntToString(poll.last.value));
      IntToStringFalsy(poll.last.value);
    }
  }
}
