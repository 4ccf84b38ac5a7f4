/**
 * `HCClient`: the shaping the client does around its HTTP calls. The HTTP
 * request and `json_decode` are the controller's responses; the client trims
 * its base URL, accepts or rejects a response, indexes the device and room
 * lists by id and builds the events query.
 */
module HCClientModel {
  import opened Values
  import opened Api

  /** `rtrim($baseUrl, '/')`. */
  function TrimSlashes(s: string): (r: string)
    ensures r <= s
    ensures r == [] || r[|r| - 1] != '/'
    ensures forall i :: |r| <= i < |s| ==> s[i] == '/'
  {
    if s != [] && s[|s| - 1] == '/' then TrimSlashes(s[..|s| - 1]) else s
  }

  /** Trimming a trimmed URL changes nothing. */
  lemma TrimSlashesIdempotent(s: string)
    ensures TrimSlashes(TrimSlashes(s)) == TrimSlashes(s)
  {
  }

  /** `call`: null unless the status is 200 and the decoded body is truthy. */
  function Accept<T>(response: Response<T>, truthy: T -> bool): (data: Option<T>)
    ensures data.Some? <==> response.status == 200 && response.body.Some? && truthy(response.body.value)
    ensures data.Some? ==> data.value == response.body.value
  {
    if response.status != 200 then None
    else if response.body.None? || !truthy(response.body.value) then None
    else response.body
  }

  /** A decoded JSON list is truthy when it is not empty. */
  predicate NonEmpty<T>(xs: seq<T>) {
    |xs| > 0
  }

  /** A decoded JSON object is truthy when it has a key. */
  predicate PollTruthy(p: Poll) {
    p.changes.Some? || p.last.Some? || p.timestamp.Some?
  }

  /** `isset($poll['changes'])`: the call succeeded and the body lists changes. */
  predicate HasChanges(poll: Option<Poll>) {
    poll.Some? && poll.value.changes.Some?
  }

  /** A 200 response whose body is an empty JSON list counts as a failed call. */
  lemma EmptyListIsRejected<T>(response: Response<seq<T>>)
    requires response.body == Some([])
    ensures Accept(response, NonEmpty) == None
  {
  }

  /** The list a `foreach` over `call(...)` visits: nothing when the call gave null. */
  function ListOf<T>(response: Response<seq<T>>): seq<T> {
    Accept(response, NonEmpty).GetOr([])
  }

  function DeviceId(d: Device): int {
    d.id
  }

  function RoomId(r: Room): int {
    r.id
  }

  /** `$result[$item['id']] = $item` over the items in order. */
  function IndexById<T>(items: seq<T>, id: T -> int): map<int, T> {
    if items == [] then map[]
    else IndexById(items[..|items| - 1], id)[id(items[|items| - 1]) := items[|items| - 1]]
  }

  /** The index holds exactly the ids of the items. */
  lemma {:induction false} IndexByIdKeys<T>(items: seq<T>, id: T -> int, k: int)
    ensures k in IndexById(items, id) <==> exists i :: 0 <= i < |items| && id(items[i]) == k
  {
    if items != [] {
      var n := |items| - 1;
      IndexByIdKeys(items[..n], id, k);
      if k in IndexById(items[..n], id) {
        var i :| 0 <= i < n && id(items[..n][i]) == k;
        assert id(items[i]) == k;
      }
      if exists i :: 0 <= i < |items| && id(items[i]) == k {
        var i :| 0 <= i < |items| && id(items[i]) == k;
        if i < n {
          assert id(items[..n][i]) == k;
        }
      }
    }
  }

  /** An id maps to the last item carrying it: a later duplicate overwrites an earlier one. */
  lemma {:induction false} IndexByIdLastWins<T>(items: seq<T>, id: T -> int, i: int)
    requires 0 <= i < |items|
    requires forall j :: i < j < |items| ==> id(items[j]) != id(items[i])
    ensures id(items[i]) in IndexById(items, id)
    ensures IndexById(items, id)[id(items[i])] == items[i]
  {
    var n := |items| - 1;
    if i < n {
      assert forall j :: i < j < n ==> id(items[..n][j]) != id(items[..n][i]);
      IndexByIdLastWins(items[..n], id, i);
    }
  }

  function OptionalInt(x: Option<int>): Option<Value> {
    if x.Some? then Some(Int(x.value)) else None
  }

  /** `$query[$k] = $x` when `$x !== null`. */
  function PutIfSet(q: Record, k: string, x: Option<int>): Record {
    if x.Some? then Put(q, k, Int(x.value)) else q
  }

  /** The entry `PutIfSet` adds to a query without the key. */
  function EntryIfSet(k: string, x: Option<int>): Record {
    if x.Some? then [(k, Int(x.value))] else []
  }

  /** A key looked up in a concatenation is found in the first part that has it. */
  lemma {:induction false} LookupConcat(a: Record, b: Record, k: string)
    ensures Lookup(a + b, k) == if Lookup(a, k).Some? then Lookup(a, k) else Lookup(b, k)
  {
    if a != [] {
      assert (a + b)[0] == a[0] && (a + b)[1..] == a[1..] + b;
      if a[0].0 != k {
        LookupConcat(a[1..], b, k);
        assert Lookup(a + b, k) == Lookup(a[1..] + b, k);
      }
    } else {
      assert a + b == b;
    }
  }

  /** The query `panelsEvent` sends. */
  function EventQuery(kind: string, last: Option<int>, startFrom: Option<int>, from: Option<int>, to: Option<int>): Record {
    var q := [("type", Str(kind))];
    var q := PutIfSet(q, "last", last);
    var q := PutIfSet(q, "startFrom", startFrom);
    var q := PutIfSet(q, "from", from);
    PutIfSet(q, "to", to)
  }

  /** Adding a key the query does not hold appends it. */
  lemma PutIfSetNew(q: Record, k: string, x: Option<int>)
    requires Lookup(q, k).None?
    ensures PutIfSet(q, k, x) == q + EntryIfSet(k, x)
  {
  }

  /**
   * Each key `panelsEvent` sets is new to the query, so the query is `type`
   * followed by those of `last`, `startFrom`, `from` and `to` that are not
   * null, in that order.
   */
  lemma EventQueryAppends(kind: string, last: Option<int>, startFrom: Option<int>, from: Option<int>, to: Option<int>)
    ensures EventQuery(kind, last, startFrom, from, to) ==
      [("type", Str(kind))] + EntryIfSet("last", last) + EntryIfSet("startFrom", startFrom)
        + EntryIfSet("from", from) + EntryIfSet("to", to)
  {
    var t := [("type", Str(kind))];
    var a := EntryIfSet("last", last);
    var b := EntryIfSet("startFrom", startFrom);
    var c := EntryIfSet("from", from);
    PutIfSetNew(t, "last", last);
    LookupConcat(t, a, "startFrom");
    PutIfSetNew(t + a, "startFrom", startFrom);
    LookupConcat(t + a, b, "from");
    LookupConcat(t, a, "from");
    PutIfSetNew(t + a + b, "from", from);
    LookupConcat(t + a + b, c, "to");
    LookupConcat(t + a, b, "to");
    LookupConcat(t, a, "to");
    PutIfSetNew(t + a + b + c, "to", to);
  }

  /**
   * `type` maps to the event type; `last`, `startFrom`, `from` and `to` are
   * present exactly when the argument is not null, with its value; no other
   * key is present.
   */
  lemma EventQueryLookup(kind: string, last: Option<int>, startFrom: Option<int>, from: Option<int>, to: Option<int>, k: string)
    ensures Lookup(EventQuery(kind, last, startFrom, from, to), k) ==
      if k == "type" then Some(Str(kind))
      else if k == "last" then OptionalInt(last)
      else if k == "startFrom" then OptionalInt(startFrom)
      else if k == "from" then OptionalInt(from)
      else if k == "to" then OptionalInt(to)
      else None
  {
    EventQueryAppends(kind, last, startFrom, from, to);
    AppendedQueryLookup(kind, last, startFrom, from, to, k);
  }

  /** `EventQueryLookup` for `type` followed by the optional entries. */
  lemma AppendedQueryLookup(kind: string, last: Option<int>, startFrom: Option<int>, from: Option<int>, to: Option<int>, k: string)
    ensures Lookup([("type", Str(kind))] + EntryIfSet("last", last) + EntryIfSet("startFrom", startFrom)
        + EntryIfSet("from", from) + EntryIfSet("to", to), k) ==
      if k == "type" then Some(Str(kind))
      else if k == "last" then OptionalInt(last)
      else if k == "startFrom" then OptionalInt(startFrom)
      else if k == "from" then OptionalInt(from)
      else if k == "to" then OptionalInt(to)
      else None
  {
    var t := [("type", Str(kind))];
    var a := EntryIfSet("last", last);
    var b := EntryIfSet("startFrom", startFrom);
    var c := EntryIfSet("from", from);
    var d := EntryIfSet("to", to);
    LookupConcat(t + a + b + c, d, k);
    LookupConcat(t + a + b, c, k);
    LookupConcat(t + a, b, k);
    LookupConcat(t, a, k);
  }

  /** The keys of the query, in the order `panelsEvent` adds them. */
  function EventQueryKeys(last: Option<int>, startFrom: Option<int>, from: Option<int>, to: Option<int>): seq<string> {
    ["type"]
      + (if last.Some? then ["last"] else [])
      + (if startFrom.Some? then ["startFrom"] else [])
      + (if from.Some? then ["from"] else [])
      + (if to.Some? then ["to"] else [])
  }
  /** The keys of `type` followed by the optional entries are `EventQueryKeys`. */
  lemma AppendedQueryKeys(kind: string, last: Option<int>, startFrom: Option<int>, from: Option<int>, to: Option<int>)
    ensures Keys([("type", Str(kind))] + EntryIfSet("last", last) + EntryIfSet("startFrom", startFrom)
        + EntryIfSet("from", from) + EntryIfSet("to", to)) == EventQueryKeys(last, startFrom, from, to)
  {
    var t := [("type", Str(kind))];
    var a := EntryIfSet("last", last);
    var b := EntryIfSet("startFrom", startFrom);
    var c := EntryIfSet("from", from);
    var d := EntryIfSet("to", to);
    KeysConcat(t, a);
    KeysConcat(t + a, b);
    KeysConcat(t + a + b, c);
    KeysConcat(t + a + b + c, d);
  }

  /** No key of the query is added twice. */
  lemma EventQueryKeysDistinct(last: Option<int>, startFrom: Option<int>, from: Option<int>, to: Option<int>)
    ensures var ks := EventQueryKeys(last, startFrom, from, to);
      forall i, j :: 0 <= i < j < |ks| ==> ks[i] != ks[j]
  {
  }

  /** The query's keys are those of its entries, in order, and no two are equal. */
  lemma AppendedQueryShape(kind: string, last: Option<int>, startFrom: Option<int>, from: Option<int>, to: Option<int>)
    ensures var q := [("type", Str(kind))] + EntryIfSet("last", last) + EntryIfSet("startFrom", startFrom)
        + EntryIfSet("from", from) + EntryIfSet("to", to);
      q[0] == ("type", Str(kind)) && UniqueKeys(q) && Keys(q) == EventQueryKeys(last, startFrom, from, to)
  {
    var q := [("type", Str(kind))] + EntryIfSet("last", last) + EntryIfSet("startFrom", startFrom)
        + EntryIfSet("from", from) + EntryIfSet("to", to);
    AppendedQueryKeys(kind, last, startFrom, from, to);
    EventQueryKeysDistinct(last, startFrom, from, to);
    assert forall i :: 0 <= i < |q| ==> q[i].0 == Keys(q)[i];
  }

  /** The query starts with `type`, holds no key twice, and keeps the keys in the order they are added. */
  lemma EventQueryShape(kind: string, last: Option<int>, startFrom: Option<int>, from: Option<int>, to: Option<int>)
    ensures var q := EventQuery(kind, last, startFrom, from, to);
      |q| > 0 && q[0] == ("type", Str(kind)) && UniqueKeys(q)
      && Keys(q) == EventQueryKeys(last, startFrom, from, to)
  {
    EventQueryAppends(kind, last, startFrom, from, to);
    AppendedQueryShape(kind, last, startFrom, from, to);
  }

  /** `$result[$item['id']] = $item` for every item, in order. */
  method BuildIndex<T>(data: seq<T>, id: T -> int) returns (result: map<int, T>)
    ensures result == IndexById(data, id)
  {
    result := map[];
    var i := 0;
    while i < |data|
      invariant 0 <= i <= |data|
      invariant result == IndexById(data[..i], id)
    {
      assert data[..i + 1][..i] == data[..i];
      result := result[id(data[i]) := data[i]];
      i := i + 1;
    }
    assert data[..i] == data;
  }

  class HCClient {
    const baseUrl: string
    const username: string
    const password: string
    const verifySSL: bool
    const controller: Controller

    constructor(baseUrl: string, username: string, password: string, verifySSL: bool, controller: Controller)
      ensures this.baseUrl == TrimSlashes(baseUrl)
      ensures this.username == username && this.password == password && this.verifySSL == verifySSL
      ensures this.controller == controller
    {
      this.baseUrl := TrimSlashes(baseUrl);
      this.username := username;
      this.password := password;
      this.verifySSL := verifySSL;
      this.controller := controller;
    }

    /** `devices()`: never null, an empty index when the call fails. */
    method Devices() returns (devices: map<int, Device>)
      ensures devices == IndexById(ListOf(controller.devices), DeviceId)
      ensures Accept(controller.devices, NonEmpty).None? ==> devices == map[]
    {
      devices := BuildIndex(ListOf(controller.devices), DeviceId);
    }

    /** `rooms()`, likewise. */
    method Rooms() returns (rooms: map<int, Room>)
      ensures rooms == IndexById(ListOf(controller.rooms), RoomId)
      ensures Accept(controller.rooms, NonEmpty).None? ==> rooms == map[]
    {
      rooms := BuildIndex(ListOf(controller.rooms), RoomId);
    }

    /** `refreshStates($last)`: the result of the call, unchanged. */
    function RefreshStates(last: string): (poll: Option<Poll>)
      ensures poll == Accept(controller.refreshStates(last), PollTruthy)
    {
      Accept(controller.refreshStates(last), PollTruthy)
    }

    /** `panelsEvent(...)`: the accepted events, or an empty list when the call gives null. */
    function PanelsEvent(kind: string, last: Option<int>, startFrom: Option<int>, from: Option<int>, to: Option<int>): (events: seq<Event>)
      ensures var response := controller.events(EventQuery(kind, last, startFrom, from, to));
        events == if Accept(response, NonEmpty).Some? then response.body.value else []
    {
      Accept(controller.events(EventQuery(kind, last, startFrom, from, to)), NonEmpty).GetOr([])
    }
  }
}
