/**
 * `log:devices`, the older form of the refresh-states command: the token
 * lives in a plain file, and every change that carries an `id` and a
 * `value` is written as a point of its own, measured under the device's type.
 */
module LogDevices {
  import opened Values
  import opened Api
  import opened Points
  import opened Reference
  import opened CursorStore
  import opened HCClientModel

  /** The keys of a change that never become fields. */
  const Bookkeeping: seq<string> := ["id", "value", "log", "logTemp", "lastBreached"]

  /** How a run ended, the files afterwards, and the batches written, one per `writePoints` call. */
  datatype DevicesResult = DevicesResult(outcome: Outcome, files: map<string, string>, batches: seq<seq<Point>>)

  /** `$lastFile ? (int) $lastFile : 1`, from what `@file_get_contents` returned. */
  function LastToken(content: Option<string>): int {
    if content.None? || FalsyString(content.value) then 1 else CastInt(content.value)
  }

  /**
   * `getFieldValue`: the strings "true" and "false" become 1 and 0, numbers
   * and numeric strings pass through, and everything else, booleans
   * included, becomes null.
   */
  function FieldValue(v: Value): (r: Value)
    ensures r != Null ==> IsNumeric(r)
    ensures r == Null <==> v != Str("true") && v != Str("false") && !IsNumeric(v)
    ensures v == Str("true") ==> r == Int(1)
    ensures v == Str("false") ==> r == Int(0)
    ensures v != Str("true") && v != Str("false") && IsNumeric(v) ==> r == v
  {
    if v == Str("true") then Int(1)
    else if v == Str("false") then Int(0)
    else if IsNumeric(v) then v
    else Null
  }

  // ---------------------------------------------------------------------------
  // One change, one point

  /** The `foreach` in `saveToInflux`: every other key whose value coerces to a number, set in turn. */
  function FieldsOf(change: Record): Record
    decreases |change|
  {
    if change == [] then []
    else
      var fields := FieldsOf(change[..|change| - 1]);
      var (k, v) := change[|change| - 1];
      if k in Bookkeeping || FieldValue(v) == Null then fields else Put(fields, k, FieldValue(v))
  }

  /** The entries of a change that are not bookkeeping and have a numeric value, in order, each coerced. */
  function Kept(change: Record): (kept: Record)
    ensures |kept| <= |change|
    ensures forall i :: 0 <= i < |kept| ==> kept[i].0 !in Bookkeeping && IsNumeric(kept[i].1)
    decreases |change|
  {
    if change == [] then []
    else
      var (k, v) := change[|change| - 1];
      Kept(change[..|change| - 1]) + (if k in Bookkeeping || FieldValue(v) == Null then [] else [(k, FieldValue(v))])
  }

  /** Every key `Kept` keeps is a key of the change. */
  lemma {:induction false} KeptKeys(change: Record, k: string)
    requires Lookup(change, k).None?
    ensures Lookup(Kept(change), k).None?
    decreases |change|
  {
    if change != [] {
      var init := change[..|change| - 1];
      var (k', v) := change[|change| - 1];
      assert forall i :: 0 <= i < |init| ==> init[i] == change[i];
      KeptKeys(init, k);
      LookupConcat(Kept(init), if k' in Bookkeeping || FieldValue(v) == Null then [] else [(k', FieldValue(v))], k);
    }
  }

  /**
   * For a change with one entry per key, the fields are exactly its
   * non-bookkeeping entries with a numeric value, in their original order.
   */
  lemma {:induction false} FieldsOfIsKept(change: Record)
    requires UniqueKeys(change)
    ensures FieldsOf(change) == Kept(change)
    decreases |change|
  {
    if change != [] {
      var init := change[..|change| - 1];
      var (k, v) := change[|change| - 1];
      assert UniqueKeys(init);
      FieldsOfIsKept(init);
      if k !in Bookkeeping && FieldValue(v) != Null {
        assert Lookup(init, k).None?;
        KeptKeys(init, k);
      }
    }
  }

  /** The loop that fills `$fields`. */
  method BuildFields(change: Record) returns (fields: Record)
    ensures fields == FieldsOf(change)
  {
    fields := [];
    var i := 0;
    while i < |change|
      invariant 0 <= i <= |change|
      invariant fields == FieldsOf(change[..i])
    {
      var (k, v) := change[i];
      assert change[..i + 1][..i] == change[..i];
      var fieldValue := FieldValue(v);
      if k !in Bookkeeping && fieldValue != Null {
        fields := Put(fields, k, fieldValue);
      }
      i := i + 1;
    }
    assert change[..i] == change;
  }

  /** `isset($change['id']) && isset($change['value'])`: the changes that are saved. */
  predicate Saved(change: Record) {
    IsSet(change, "id") && IsSet(change, "value")
  }

  /** `$device['type']`: null, which becomes the empty name, for a missing device. */
  function Measurement(device: Option<Device>): string {
    if device.Some? then device.value.kind else ""
  }

  /** `sensor_id`, `sensor_name`, `room_name`, `room_id`: `'None'` for the room's when it is unknown. */
  function SensorTags(id: Value, device: Option<Device>, room: Option<Room>): Record {
    [("sensor_id", id), ("sensor_name", DeviceName(device))] + RoomTags(room)
  }

  /** The tag keys are the same four, in the same order, whatever the sensor. */
  lemma SensorTagsKeys(id: Value, device: Option<Device>, room: Option<Room>)
    ensures Keys(SensorTags(id, device, room)) == ["sensor_id", "sensor_name", "room_name", "room_id"]
    ensures SensorTags(id, device, room)[0] == ("sensor_id", id)
    ensures room.None? ==> SensorTags(id, device, room)[2..] == [("room_name", NoneTag), ("room_id", NoneTag)]
  {
    KeysConcat([("sensor_id", id), ("sensor_name", DeviceName(device))], RoomTags(room));
  }

  /**
   * The point `saveToInflux` writes for a saved change: measured under the
   * device's type, the coerced value as a float, the sensor's tags, the
   * numeric fields.
   */
  function ChangePoint(change: Record, devices: map<int, Device>, rooms: map<int, Room>, timestamp: int): (p: Point)
    requires Saved(change)
    ensures p.fields == FieldsOf(change) && p.timestamp == timestamp
    ensures p.value == Some(FloatCast(FieldValue(Lookup(change, "value").value)))
  {
    var device := ChangeDevice(change, devices);
    Point(Measurement(device), Some(FloatCast(FieldValue(Lookup(change, "value").value))),
          SensorTags(Lookup(change, "id").value, device, RoomOf(device, rooms)), FieldsOf(change), timestamp)
  }

  /**
   * The point is measured under the device's type and tagged with the
   * sensor's tags: the change's id, the device's name and the room's, with
   * `'None'` for the room's when there is no room, and no section tags.
   */
  lemma ChangePointShape(change: Record, devices: map<int, Device>, rooms: map<int, Room>, timestamp: int)
    requires Saved(change)
    ensures var p := ChangePoint(change, devices, rooms, timestamp);
      var device := ChangeDevice(change, devices);
      && p.measurement == Measurement(device)
      && p.tags == SensorTags(Lookup(change, "id").value, device, RoomOf(device, rooms))
      && Keys(p.tags) == ["sensor_id", "sensor_name", "room_name", "room_id"]
      && p.tags[0] == ("sensor_id", Lookup(change, "id").value)
      && p.tags[1] == ("sensor_name", DeviceName(device))
      && (RoomOf(device, rooms).None? ==> p.tags[2..] == [("room_name", NoneTag), ("room_id", NoneTag)])
  {
    var device := ChangeDevice(change, devices);
    SensorTagsKeys(Lookup(change, "id").value, device, RoomOf(device, rooms));
  }

  /** `saveToInflux`: one `writePoints` call holding the change's point. */
  method SaveToInflux(change: Record, devices: map<int, Device>, rooms: map<int, Room>, timestamp: int, sink: Sink)
    requires Saved(change)
    modifies sink
    ensures sink.written == old(sink.written) + [[ChangePoint(change, devices, rooms, timestamp)]]
  {
    var id := Lookup(change, "id").value;
    var value := FieldValue(Lookup(change, "value").value);
    var device := ChangeDevice(change, devices);
    var room := RoomOf(device, rooms);
    var fields := BuildFields(change);
    sink.WritePoints([Point(Measurement(device), Some(FloatCast(value)), SensorTags(id, device, room), fields, timestamp)]);
  }

  // ---------------------------------------------------------------------------
  // The run

  /** The batches the `foreach` over the changes writes, one per saved change. */
  function ChangesBatches(changes: seq<Record>, devices: map<int, Device>, rooms: map<int, Room>, timestamp: int): seq<seq<Point>>
    decreases |changes|
  {
    if changes == [] then []
    else
      var change := changes[|changes| - 1];
      ChangesBatches(changes[..|changes| - 1], devices, rooms, timestamp)
        + (if Saved(change) then [[ChangePoint(change, devices, rooms, timestamp)]] else [])
  }

  /** The batch holds just the point of one of the saved changes. */
  predicate FromSaved(batch: seq<Point>, changes: seq<Record>, devices: map<int, Device>, rooms: map<int, Room>, timestamp: int) {
    exists i :: 0 <= i < |changes| && Saved(changes[i]) && batch == [ChangePoint(changes[i], devices, rooms, timestamp)]
  }

  /**
   * Every batch is one saved change's point, stamped with the poll's
   * timestamp; so there are no more batches than changes.
   */
  lemma {:induction false} ChangesBatchesSources(changes: seq<Record>, devices: map<int, Device>, rooms: map<int, Room>,
                                                 timestamp: int)
    ensures var batches := ChangesBatches(changes, devices, rooms, timestamp);
      && |batches| <= |changes|
      && (forall j :: 0 <= j < |batches| ==> |batches[j]| == 1 && batches[j][0].timestamp == timestamp)
      && (forall j :: 0 <= j < |batches| ==> FromSaved(batches[j], changes, devices, rooms, timestamp))
    decreases |changes|
  {
    if changes != [] {
      var init := changes[..|changes| - 1];
      ChangesBatchesSources(init, devices, rooms, timestamp);
      var batches := ChangesBatches(changes, devices, rooms, timestamp);
      var left := ChangesBatches(init, devices, rooms, timestamp);
      forall j | 0 <= j < |batches|
        ensures FromSaved(batches[j], changes, devices, rooms, timestamp)
      {
        if j < |left| {
          assert FromSaved(left[j], init, devices, rooms, timestamp);
          var i :| 0 <= i < |init| && Saved(init[i]) && left[j] == [ChangePoint(init[i], devices, rooms, timestamp)];
          assert changes[i] == init[i] && batches[j] == left[j];
        } else {
          assert batches[j] == [ChangePoint(changes[|changes| - 1], devices, rooms, timestamp)];
        }
      }
    }
  }

  /** Every saved change is written, as a batch of its own point. */
  lemma {:induction false} ChangesBatchesCover(changes: seq<Record>, devices: map<int, Device>, rooms: map<int, Room>,
                                               timestamp: int)
    ensures forall i :: 0 <= i < |changes| && Saved(changes[i]) ==>
      [ChangePoint(changes[i], devices, rooms, timestamp)] in ChangesBatches(changes, devices, rooms, timestamp)
    decreases |changes|
  {
    if changes != [] {
      var init := changes[..|changes| - 1];
      ChangesBatchesCover(init, devices, rooms, timestamp);
      forall i | 0 <= i < |init| && Saved(changes[i])
        ensures [ChangePoint(changes[i], devices, rooms, timestamp)] in ChangesBatches(changes, devices, rooms, timestamp)
      {
        assert changes[i] == init[i];
      }
    }
  }

  /** One turn of the `foreach` over the changes. */
  method SaveChange(change: Record, devices: map<int, Device>, rooms: map<int, Room>, timestamp: int, sink: Sink,
                    ghost base: seq<seq<Point>>, ghost done: seq<seq<Point>>)
    requires sink.written == base + done
    modifies sink
    ensures sink.written == base + (done + if Saved(change) then [[ChangePoint(change, devices, rooms, timestamp)]] else [])
  {
    if Saved(change) {
      SaveToInflux(change, devices, rooms, timestamp, sink);
      assert sink.written == base + (done + [[ChangePoint(change, devices, rooms, timestamp)]]) by {
        assert sink.written == (base + done) + [[ChangePoint(change, devices, rooms, timestamp)]];
      }
    } else {
      assert done + [] == done;
    }
  }

  /** The `foreach` over the changes. */
  method SaveChanges(changes: seq<Record>, devices: map<int, Device>, rooms: map<int, Room>, timestamp: int, sink: Sink)
    modifies sink
    ensures sink.written == old(sink.written) + ChangesBatches(changes, devices, rooms, timestamp)
  {
    var i := 0;
    while i < |changes|
      invariant 0 <= i <= |changes|
      invariant sink.written == old(sink.written) + ChangesBatches(changes[..i], devices, rooms, timestamp)
    {
      assert changes[..i + 1][..i] == changes[..i];
      SaveChange(changes[i], devices, rooms, timestamp, sink, old(sink.written), ChangesBatches(changes[..i], devices, rooms, timestamp));
      i := i + 1;
    }
    assert changes[..i] == changes;
  }

  /** The content `@file_get_contents` sees. */
  function FileAt(files: map<string, string>, path: string): Option<string> {
    if path in files then Some(files[path]) else None
  }

  /** `execute`, from the files it starts with. */
  function DevicesRun(client: HCClient, files: map<string, string>, unwritable: set<string>, lastFile: string): DevicesResult {
    var poll := client.RefreshStates(IntToString(LastToken(FileAt(files, lastFile))));
    if !HasChanges(poll) then DevicesResult(Thrown, files, [])
    else
      var files' := if poll.value.last.Some? then Written(files, unwritable, lastFile, IntToString(poll.value.last.value)) else files;
      DevicesResult(Exit(0), files',
        ChangesBatches(poll.value.changes.value, IndexById(ListOf(client.controller.devices), DeviceId),
          IndexById(ListOf(client.controller.rooms), RoomId), poll.value.timestamp.GetOr(0)))
  }

  /** `@file_get_contents($lastFile)` and the token made of it. */
  method ReadLast(fs: FileSystem, lastFile: string) returns (last: int)
    ensures last == LastToken(FileAt(fs.files, lastFile))
  {
    var content := fs.Get(lastFile);
    last := if content.Some? && !FalsyString(content.value) then CastInt(content.value) else 1;
  }

  /** `execute`: the reference data, the token, the poll, the token written, then one write per saved change. */
  method Execute(client: HCClient, fs: FileSystem, lastFile: string, sink: Sink) returns (outcome: Outcome)
    modifies fs, sink
    ensures var run := DevicesRun(client, old(fs.files), fs.unwritable, lastFile);
      outcome == run.outcome && fs.files == run.files && sink.written == old(sink.written) + run.batches
  {
    var devices := client.Devices();
    var rooms := client.Rooms();

    var last := ReadLast(fs, lastFile);
    var poll := client.RefreshStates(IntToString(last));
    if !(poll.Some? && poll.value.changes.Some?) {
      return Thrown;
    }

    var timestamp := poll.value.timestamp.GetOr(0);
    if poll.value.last.Some? {
      var _ := fs.Put(lastFile, IntToString(poll.value.last.value));
    }
    SaveChanges(poll.value.changes.value, devices, rooms, timestamp, sink);
    outcome := Exit(0);
  }

  // ---------------------------------------------------------------------------
  // Properties of a run

  /**
   * A poll without `changes` throws, leaving the file as it was and writing
   * nothing; otherwise the run ends with 0, having written the poll's `last`
   * to the file when it is set.
   */
  lemma DevicesRunEffects(client: HCClient, files: map<string, string>, unwritable: set<string>, lastFile: string)
    ensures var run := DevicesRun(client, files, unwritable, lastFile);
      var poll := client.RefreshStates(IntToString(LastToken(FileAt(files, lastFile))));
      && (run.outcome == Thrown <==> !HasChanges(poll))
      && (run.outcome == Thrown ==> run.files == files && run.batches == [])
      && run.outcome in {Thrown, Exit(0)}
      && (run.outcome == Exit(0) && poll.value.last.Some? && lastFile !in unwritable ==>
            run.files == files[lastFile := IntToString(poll.value.last.value)])
      && (run.outcome == Exit(0) && poll.value.last.None? ==> run.files == files)
      && (forall j :: 0 <= j < |run.batches| ==> |run.batches[j]| == 1)
  {
    var poll := client.RefreshStates(IntToString(LastToken(FileAt(files, lastFile))));
    if HasChanges(poll) {
      ChangesBatchesSources(poll.value.changes.value, IndexById(ListOf(client.controller.devices), DeviceId),
        IndexById(ListOf(client.controller.rooms), RoomId), poll.value.timestamp.GetOr(0));
    }
  }

  /**
   * The token round trip: without a file the poll starts from 1, and after
   * writing `last` to a writable file the next run polls from `last`, or
   * from 1 when `last` is 0, since `"0"` is falsy.
   */
  lemma LastRoundTrip(files: map<string, string>, unwritable: set<string>, lastFile: string, last: int)
    ensures lastFile !in files ==> LastToken(FileAt(files, lastFile)) == 1
    ensures lastFile !in unwritable ==>
      LastToken(FileAt(Written(files, unwritable, lastFile, IntToString(last)), lastFile)) == if last == 0 then 1 else last
  {
    IntToStringFalsy(last);
    CastIntOfIntToString(last);
  }
}
