/**
 * `log:diagnostics`: the controller's memory, storage and CPU figures,
 * flattened into one batch of points stamped with the same time.
 */
module LogDiagnostics {
  import opened Values
  import opened Api
  import opened Points
  import opened HCClientModel

  /** The `system.memory` point: no tags, the four memory figures as integers. */
  function MemoryPoint(m: Memory, timestamp: int): (p: Point)
    ensures p.measurement == "system.memory" && p.value.None? && p.tags == [] && p.timestamp == timestamp
    ensures Keys(p.fields) == ["free", "cache", "buffers", "used"]
  {
    Point("system.memory", None, [],
      [("free", Int(IntCast(m.free))), ("cache", Int(IntCast(m.cache))),
       ("buffers", Int(IntCast(m.buffers))), ("used", Int(IntCast(m.used)))],
      timestamp)
  }

  /** A `system.storage` point: tagged with the storage type and the entry's name, the used amount as a float. */
  function StoragePoint(kind: string, e: StorageEntry, timestamp: int): (p: Point)
    ensures p.measurement == "system.storage" && p.value.None? && p.timestamp == timestamp
    ensures p.tags == [("type", Str(kind)), ("name", e.name)]
    ensures Keys(p.fields) == ["used"]
  {
    Point("system.storage", None, [("type", Str(kind)), ("name", e.name)], [("used", FloatCast(e.used))], timestamp)
  }

  /** A `system.cpuLoad` point: tagged with the CPU's name and user time, the other times as integers. */
  function CpuPoint(c: CpuLoad, timestamp: int): (p: Point)
    ensures p.measurement == "system.cpuLoad" && p.value.None? && p.timestamp == timestamp
    ensures p.tags == [("name", c.name), ("user", c.user)]
    ensures Keys(p.fields) == ["nice", "system", "idle"]
  {
    Point("system.cpuLoad", None, [("name", c.name), ("user", c.user)],
      [("nice", Int(IntCast(c.nice))), ("system", Int(IntCast(c.system))), ("idle", Int(IntCast(c.idle)))],
      timestamp)
  }

  // ---------------------------------------------------------------------------
  // The flattening

  /** How many storage entries there are, over all storage types. */
  function TotalEntries(storage: seq<(string, seq<StorageEntry>)>): nat
    decreases |storage|
  {
    if storage == [] then 0 else TotalEntries(storage[..|storage| - 1]) + |storage[|storage| - 1].1|
  }

  /** The points of one storage type's entries, in order. */
  function EntryPoints(kind: string, entries: seq<StorageEntry>, timestamp: int): (ps: seq<Point>)
    ensures |ps| == |entries|
    ensures forall k :: 0 <= k < |entries| ==> ps[k] == StoragePoint(kind, entries[k], timestamp)
  {
    seq(|entries|, k requires 0 <= k < |entries| => StoragePoint(kind, entries[k], timestamp))
  }

  /** The storage points: type after type, entry after entry. */
  function StoragePoints(storage: seq<(string, seq<StorageEntry>)>, timestamp: int): (ps: seq<Point>)
    ensures |ps| == TotalEntries(storage)
    decreases |storage|
  {
    if storage == [] then []
    else
      var (kind, entries) := storage[|storage| - 1];
      StoragePoints(storage[..|storage| - 1], timestamp) + EntryPoints(kind, entries, timestamp)
  }

  /** The CPU points, in order. */
  function CpuPoints(cpuLoad: seq<CpuLoad>, timestamp: int): (ps: seq<Point>)
    ensures |ps| == |cpuLoad|
    ensures forall c :: 0 <= c < |cpuLoad| ==> ps[c] == CpuPoint(cpuLoad[c], timestamp)
  {
    seq(|cpuLoad|, c requires 0 <= c < |cpuLoad| => CpuPoint(cpuLoad[c], timestamp))
  }

  /** What `createInfluxPoints` returns. */
  function DiagnosticsPoints(d: Diagnostics, timestamp: int): seq<Point> {
    [MemoryPoint(d.memory, timestamp)] + StoragePoints(d.storage, timestamp) + CpuPoints(d.cpuLoad, timestamp)
  }

  /** Where storage type t's entries begin among the storage points. */
  function Offset(storage: seq<(string, seq<StorageEntry>)>, t: nat): nat
    requires t <= |storage|
  {
    TotalEntries(storage[..t])
  }

  /** Storage type t's entries end before the storage points do. */
  lemma {:induction false} OffsetBound(storage: seq<(string, seq<StorageEntry>)>, t: nat)
    requires t < |storage|
    ensures Offset(storage, t) + |storage[t].1| <= TotalEntries(storage)
    decreases |storage|
  {
    var init := storage[..|storage| - 1];
    if t == |storage| - 1 {
      assert storage[..t] == init;
    } else {
      assert storage[..t] == init[..t];
      assert init[t] == storage[t];
      OffsetBound(init, t);
    }
  }

  /** Entry k of storage type t is the storage point at `Offset(storage, t) + k`. */
  lemma {:induction false} StoragePointAt(storage: seq<(string, seq<StorageEntry>)>, timestamp: int, t: nat, k: nat)
    requires t < |storage| && k < |storage[t].1|
    ensures Offset(storage, t) + k < TotalEntries(storage)
    ensures StoragePoints(storage, timestamp)[Offset(storage, t) + k] == StoragePoint(storage[t].0, storage[t].1[k], timestamp)
    decreases |storage|
  {
    var init := storage[..|storage| - 1];
    if t == |storage| - 1 {
      assert storage[..t] == init;
    } else {
      assert storage[..t] == init[..t];
      assert init[t] == storage[t];
      StoragePointAt(init, timestamp, t, k);
      OffsetBound(init, t);
    }
  }

  /**
   * The layout of the batch: the memory point first, then storage type t's
   * entry k at `1 + Offset(storage, t) + k`, then CPU c at
   * `1 + TotalEntries(storage) + c`; `1 + TotalEntries + |cpuLoad|` points
   * in all, every one stamped with the same time.
   */
  lemma DiagnosticsLayout(d: Diagnostics, timestamp: int)
    ensures |DiagnosticsPoints(d, timestamp)| == 1 + TotalEntries(d.storage) + |d.cpuLoad|
    ensures DiagnosticsPoints(d, timestamp)[0] == MemoryPoint(d.memory, timestamp)
    ensures forall t :: 0 <= t < |d.storage| ==> Offset(d.storage, t) + |d.storage[t].1| <= TotalEntries(d.storage)
    ensures forall t, k :: 0 <= t < |d.storage| && 0 <= k < |d.storage[t].1| ==>
      DiagnosticsPoints(d, timestamp)[1 + Offset(d.storage, t) + k] == StoragePoint(d.storage[t].0, d.storage[t].1[k], timestamp)
    ensures forall c :: 0 <= c < |d.cpuLoad| ==>
      DiagnosticsPoints(d, timestamp)[1 + TotalEntries(d.storage) + c] == CpuPoint(d.cpuLoad[c], timestamp)
    ensures forall j :: 0 <= j < |DiagnosticsPoints(d, timestamp)| ==> DiagnosticsPoints(d, timestamp)[j].timestamp == timestamp
  {
    var ps := DiagnosticsPoints(d, timestamp);
    var sp := StoragePoints(d.storage, timestamp);
    forall t | 0 <= t < |d.storage|
      ensures Offset(d.storage, t) + |d.storage[t].1| <= TotalEntries(d.storage)
    {
      OffsetBound(d.storage, t);
    }
    forall t, k | 0 <= t < |d.storage| && 0 <= k < |d.storage[t].1|
      ensures ps[1 + Offset(d.storage, t) + k] == StoragePoint(d.storage[t].0, d.storage[t].1[k], timestamp)
    {
      StoragePointAt(d.storage, timestamp, t, k);
      assert ps[1 + Offset(d.storage, t) + k] == sp[Offset(d.storage, t) + k];
    }
    forall j | 1 <= j < 1 + |sp|
      ensures ps[j].timestamp == timestamp
    {
      StoragePointsTimestamp(d.storage, timestamp, j - 1);
    }
  }

  /** Every storage point carries the given time. */
  lemma {:induction false} StoragePointsTimestamp(storage: seq<(string, seq<StorageEntry>)>, timestamp: int, j: nat)
    requires j < TotalEntries(storage)
    ensures StoragePoints(storage, timestamp)[j].timestamp == timestamp
    decreases |storage|
  {
    var init := storage[..|storage| - 1];
    if j < TotalEntries(init) {
      StoragePointsTimestamp(init, timestamp, j);
    }
  }

  // ---------------------------------------------------------------------------
  // The methods

  /** The inner `foreach`: one `array_merge` per entry of a storage type. */
  method MergeEntries(result: seq<Point>, kind: string, entries: seq<StorageEntry>, timestamp: int) returns (merged: seq<Point>)
    ensures merged == result + EntryPoints(kind, entries, timestamp)
  {
    merged := result;
    var k := 0;
    while k < |entries|
      invariant 0 <= k <= |entries|
      invariant merged == result + EntryPoints(kind, entries[..k], timestamp)
    {
      merged := merged + [StoragePoint(kind, entries[k], timestamp)];
      k := k + 1;
    }
    assert entries[..k] == entries;
  }

  /** The `foreach` over the CPUs, one `array_merge` each. */
  method MergeCpus(result: seq<Point>, cpuLoad: seq<CpuLoad>, timestamp: int) returns (merged: seq<Point>)
    ensures merged == result + CpuPoints(cpuLoad, timestamp)
  {
    merged := result;
    var c := 0;
    while c < |cpuLoad|
      invariant 0 <= c <= |cpuLoad|
      invariant merged == result + CpuPoints(cpuLoad[..c], timestamp)
    {
      merged := merged + [CpuPoint(cpuLoad[c], timestamp)];
      c := c + 1;
    }
    assert cpuLoad[..c] == cpuLoad;
  }

  /** `createInfluxPoints`. */
  method CreateInfluxPoints(d: Diagnostics, timestamp: int) returns (result: seq<Point>)
    ensures result == DiagnosticsPoints(d, timestamp)
  {
    var storagePoints: seq<Point> := [];
    var t := 0;
    while t < |d.storage|
      invariant 0 <= t <= |d.storage|
      invariant storagePoints == StoragePoints(d.storage[..t], timestamp)
    {
      var (kind, entries) := d.storage[t];
      assert d.storage[..t + 1][..t] == d.storage[..t];
      storagePoints := MergeEntries(storagePoints, kind, entries, timestamp);
      t := t + 1;
    }
    assert d.storage[..t] == d.storage;
    result := MergeCpus([MemoryPoint(d.memory, timestamp)] + storagePoints, d.cpuLoad, timestamp);
  }

  /** `execute`: no diagnostics ends the run with 1 and writes nothing; otherwise one write of the whole batch. */
  method Execute(client: HCClient, now: int, sink: Sink) returns (outcome: Outcome)
    modifies sink
    ensures client.controller.diagnostics.None? ==> outcome == Exit(1) && sink.written == old(sink.written)
    ensures client.controller.diagnostics.Some? ==>
      outcome == Exit(0) && sink.written == old(sink.written) + [DiagnosticsPoints(client.controller.diagnostics.value, now)]
  {
    var diagnostics := client.controller.diagnostics;
    if diagnostics.None? {
      return Exit(1);
    }
    var points := CreateInfluxPoints(diagnostics.value, now);
    sink.WritePoints(points);
    outcome := Exit(0);
  }
}
