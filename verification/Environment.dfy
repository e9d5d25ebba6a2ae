/** EnvironmentService: the region cache and the throttled request for what it misses. */
module Environment {
  import opened Wrappers
  import opened Messages

  /** 500 ms on the steady clock, in ns. */
  const THROTTLE: int := 500_000_000

  datatype EnvState = EnvState(cache: seq<Region>, lastRequest: int)

  /** Position of the entry of a region. */
  function Find(cache: seq<Region>, id: uint32): (r: Option<nat>)
    ensures r.Some? ==> r.value < |cache| && cache[r.value].id == id && forall j | 0 <= j < r.value :: cache[j].id != id
    ensures r.None? ==> forall j | 0 <= j < |cache| :: cache[j].id != id
  {
    if cache == [] then None
    else
      var r := Find(cache[..|cache| - 1], id);
      if r.Some? then r else if cache[|cache| - 1].id == id then Some(|cache| - 1) else None
  }

  /** An entry is overwritten in place, so its position, which is what a shared pointer to it is, survives. */
  function Store(cache: seq<Region>, region: Region): (c: seq<Region>)
    ensures |cache| <= |c|
    ensures forall i | 0 <= i < |cache| :: c[i].id == cache[i].id
  {
    var at := Find(cache, region.id);
    if at.Some? then cache[at.value := region] else cache + [region]
  }

  predicate Covers(e: Region, x: real, y: real) {
    e.minX <= x <= e.maxX && e.minY <= y <= e.maxY
  }

  /** The first entry that covers the point. */
  function Lookup(cache: seq<Region>, x: real, y: real): (r: Option<nat>)
    ensures r.Some? ==>
              && r.value < |cache| && Covers(cache[r.value], x, y)
              && forall j | 0 <= j < r.value :: !Covers(cache[j], x, y)
    ensures r.None? ==> forall j | 0 <= j < |cache| :: !Covers(cache[j], x, y)
  {
    if cache == [] then None
    else
      var r := Lookup(cache[..|cache| - 1], x, y);
      if r.Some? then r else if Covers(cache[|cache| - 1], x, y) then Some(|cache| - 1) else None
  }

  // ---- the cache is a map ------------------------------------------------------------------------

  function CacheAfter(received: seq<Region>): seq<Region> {
    if received == [] then [] else Store(CacheAfter(received[..|received| - 1]), received[|received| - 1])
  }

  predicate UniqueIds(cache: seq<Region>) {
    forall i, j | 0 <= i < j < |cache| :: cache[i].id != cache[j].id
  }

  /** The last payload received for every region. */
  function LastPayload(received: seq<Region>): map<uint32, Region> {
    if received == [] then map[]
    else LastPayload(received[..|received| - 1])[received[|received| - 1].id := received[|received| - 1]]
  }

  /** Region ids in the order in which they were first received. */
  function FirstReceipts(received: seq<Region>): seq<uint32> {
    if received == [] then []
    else
      var ids := FirstReceipts(received[..|received| - 1]);
      var id := received[|received| - 1].id;
      if id in ids then ids else ids + [id]
  }

  predicate Refines(cache: seq<Region>, m: map<uint32, Region>, ids: seq<uint32>) {
    && UniqueIds(cache)
    && |cache| == |ids|
    && (forall i | 0 <= i < |cache| :: cache[i].id == ids[i])
    && (forall i | 0 <= i < |cache| :: cache[i].id in m && m[cache[i].id] == cache[i])
    && (forall id | id in m :: id in ids)
  }

  /** One entry per region, in order of first receipt, holding the last payload of the region. */
  lemma {:induction false} CacheRefinesMap(received: seq<Region>)
    ensures Refines(CacheAfter(received), LastPayload(received), FirstReceipts(received))
  {
    if received != [] {
      var before, e := received[..|received| - 1], received[|received| - 1];
      CacheRefinesMap(before);
      StoreRefines(CacheAfter(before), LastPayload(before), FirstReceipts(before), e);
    }
  }

  lemma StoreRefines(cache: seq<Region>, m: map<uint32, Region>, ids: seq<uint32>, e: Region)
    requires Refines(cache, m, ids)
    ensures Refines(Store(cache, e), m[e.id := e], if e.id in ids then ids else ids + [e.id])
  {
    var at := Find(cache, e.id);
    if at.Some? {
      assert ids[at.value] == e.id;
    } else {
      assert e.id !in ids;
    }
  }
}
