/**
 * The records the home-center controller's API returns, already decoded
 * from JSON, and the controller itself as a set of responses, one per
 * endpoint the commands call.
 */
module Api {
  import opened Values

  datatype Device = Device(id: int, name: string, kind: string, roomID: Option<int>)

  datatype Room = Room(id: int, name: Option<string>, sectionID: Option<int>)

  datatype Section = Section(id: int, name: Option<string>)

  /** The `event` part of a `DEVICE_EVENT`: its type and its `data.property` / `data.newValue`. */
  datatype InnerEvent = InnerEvent(kind: string, property: string, newValue: Value)

  /** One entry of `/api/panels/event`. */
  datatype Event = Event(
    id: int,
    kind: string,
    inner: Option<InnerEvent>,
    propertyName: string,
    newValue: Value,
    deviceID: int,
    deviceType: string,
    timestamp: int)

  /** The body of `/api/refreshStates`: a change is a PHP array of property => value. */
  datatype Poll = Poll(changes: Option<seq<Record>>, last: Option<int>, timestamp: Option<int>)

  /** The energy aggregates of one device over one window. */
  datatype ConsumptionData = ConsumptionData(id: int, kWh: Value, watts: Value, min: Value, max: Value, avg: Value)

  datatype Memory = Memory(free: Value, cache: Value, buffers: Value, used: Value)

  datatype StorageEntry = StorageEntry(name: Value, used: Value)

  datatype CpuLoad = CpuLoad(name: Value, user: Value, nice: Value, system: Value, idle: Value)

  /** `storage` maps a storage type to its entries, in the order the controller sent them. */
  datatype Diagnostics = Diagnostics(memory: Memory, storage: seq<(string, seq<StorageEntry>)>, cpuLoad: seq<CpuLoad>)

  /** An HTTP response: its status and its JSON-decoded body (None when `json_decode` gives null). */
  datatype Response<+T> = Response(status: int, body: Option<T>)

  /**
   * The controller as the commands see it during one run. `events` answers a
   * `/api/panels/event` query, `refreshStates` a poll for a token; `sections`,
   * `consumption` (from, to, device id) and `diagnostics` stand for client
   * calls whose HTTP side is not part of this model, None meaning the call
   * gave null (or, for diagnostics, a falsy body).
   */
  datatype Controller = Controller(
    devices: Response<seq<Device>>,
    rooms: Response<seq<Room>>,
    sections: Option<map<int, Section>>,
    events: Record -> Response<seq<Event>>,
    refreshStates: string -> Response<Poll>,
    consumption: (int, int, int) -> Option<ConsumptionData>,
    diagnostics: Option<Diagnostics>)
}
