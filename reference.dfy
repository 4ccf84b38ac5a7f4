/**
 * The device -> room -> section join the point builders use, and the tags it
 * yields, with the `'None'` sentinel for a missing link.
 */
module Reference {
  import opened Values
  import opened Api

  /**
   * `$devices[$id]`: the command does not guard the lookup, and PHP gives
   * null (with a warning) for a missing key.
   */
  function DeviceOf(devices: map<int, Device>, id: int): (device: Option<Device>)
    ensures device.Some? <==> id in devices
    ensures device.Some? ==> device.value == devices[id]
  {
    if id in devices then Some(devices[id]) else None
  }

  /**
   * `$devices[$change['id']]`: an integer id selects its device; a change
   * without one, or with an id of another type, finds none.
   */
  function ChangeDevice(change: Record, devices: map<int, Device>): Option<Device> {
    var id := Lookup(change, "id");
    if id.Some? && id.value.Int? then DeviceOf(devices, id.value.i) else None
  }

  /** `$device['name']`: null when the device is null. */
  function DeviceName(device: Option<Device>): Value {
    if device.Some? then Str(device.value.name) else Null
  }

  /**
   * `getRoomFromDevice`: the device's room; None when there is no device,
   * it has no room id, or the id is unknown (`isset` of an offset of null is false).
   */
  function RoomOf(device: Option<Device>, rooms: map<int, Room>): (room: Option<Room>)
    ensures room.Some? <==> device.Some? && device.value.roomID.Some? && device.value.roomID.value in rooms
    ensures room.Some? ==> rooms[device.value.roomID.value] == room.value
  {
    if device.None? || device.value.roomID.None? then None
    else if device.value.roomID.value in rooms then Some(rooms[device.value.roomID.value])
    else None
  }

  /** `getSectionFromRoom`: `isset` of null is false, so no room means no section. */
  function SectionOf(room: Option<Room>, sections: map<int, Section>): (section: Option<Section>)
    ensures section.Some? ==> room.Some? && room.value.sectionID.Some? && room.value.sectionID.value in sections
    ensures section.Some? ==> sections[room.value.sectionID.value] == section.value
    ensures room.Some? && room.value.sectionID.Some? && room.value.sectionID.value in sections ==> section.Some?
  {
    if room.None? || room.value.sectionID.None? then None
    else if room.value.sectionID.value in sections then Some(sections[room.value.sectionID.value])
    else None
  }

  const NoneTag: Value := Str("None")

  function NameTag(name: Option<string>): Value {
    if name.Some? then Str(name.value) else NoneTag
  }

  /** `room_name` and `room_id`: the room's values, or `'None'` for both when there is no room. */
  function RoomTags(room: Option<Room>): (tags: Record)
    ensures Keys(tags) == ["room_name", "room_id"]
    ensures room.None? ==> tags == [("room_name", NoneTag), ("room_id", NoneTag)]
  {
    match room
    case None => [("room_name", NoneTag), ("room_id", NoneTag)]
    case Some(r) => [("room_name", NameTag(r.name)), ("room_id", Int(r.id))]
  }

  /** `section_name` and `section_id`, likewise. */
  function SectionTags(section: Option<Section>): (tags: Record)
    ensures Keys(tags) == ["section_name", "section_id"]
    ensures section.None? ==> tags == [("section_name", NoneTag), ("section_id", NoneTag)]
  {
    match section
    case None => [("section_name", NoneTag), ("section_id", NoneTag)]
    case Some(s) => [("section_name", NameTag(s.name)), ("section_id", Int(s.id))]
  }

  /** The room and section tags of a device, as the events, consumption and refresh-states points carry them. */
  function LocationTags(device: Option<Device>, rooms: map<int, Room>, sections: map<int, Section>): Record {
    var room := RoomOf(device, rooms);
    RoomTags(room) + SectionTags(SectionOf(room, sections))
  }

  /**
   * A device whose room link is unset or dangling gets `'None'` for all four
   * location tags; otherwise the room tags are the room's, and the section
   * tags are `'None'` when the room's section link is unset or dangling and
   * the section's otherwise.
   */
  lemma LocationSentinels(device: Option<Device>, rooms: map<int, Room>, sections: map<int, Section>)
    ensures Keys(LocationTags(device, rooms, sections)) == ["room_name", "room_id", "section_name", "section_id"]
    ensures device.None? || device.value.roomID.None? || device.value.roomID.value !in rooms ==>
      LocationTags(device, rooms, sections) ==
        [("room_name", NoneTag), ("room_id", NoneTag), ("section_name", NoneTag), ("section_id", NoneTag)]
    ensures device.Some? && device.value.roomID.Some? && device.value.roomID.value in rooms ==>
      LocationTags(device, rooms, sections)[1] == ("room_id", Int(rooms[device.value.roomID.value].id))
    ensures device.Some? && device.value.roomID.Some? && device.value.roomID.value in rooms ==>
      var room := rooms[device.value.roomID.value];
      if room.sectionID.None? || room.sectionID.value !in sections then
        LocationTags(device, rooms, sections)[2..] == [("section_name", NoneTag), ("section_id", NoneTag)]
      else
        LocationTags(device, rooms, sections)[3] == ("section_id", Int(sections[room.sectionID.value].id))
  {
  }
}
