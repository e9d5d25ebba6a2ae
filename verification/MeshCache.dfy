/**
  The region cache over a run: it holds what was last received of every region, and so does the controller's
  pointer.
 */
module MeshCache {
  import opened Wrappers
  import opened Messages
  import opened Physics
  import opened Environment
  import opened Route
  import opened Mesh
  import opened MeshTraffic
  import opened Threads
  import opened ThreadAlone
  import opened MeshRun

  /** The region data published so far, in order. */
  function Received(s: seq<Sent>): seq<Region> {
    if s == [] then []
    else Received(s[..|s| - 1]) + if s[|s| - 1].msg.MsgRegion? then [s[|s| - 1].msg.region] else []
  }

  lemma ReceivedSnoc(s: seq<Sent>, e: Sent)
    ensures Received(s + [e]) == Received(s) + if e.msg.MsgRegion? then [e.msg.region] else []
  {
    assert (s + [e])[..|s|] == s;
  }

  /** What a message causes contains no region data. */
  lemma {:induction false} CausedReceives(id: MsgId, p: World, w': World)
    requires Caused(id, p, w') && p.sent <= w'.sent
    ensures Received(w'.sent) == Received(p.sent)
    decreases |w'.sent|
  {
    if |w'.sent| > |p.sent| {
      var last := w'.sent[|w'.sent| - 1];
      var shorter := w'.(sent := w'.sent[..|w'.sent| - 1]);
      assert Causes(id, last.msg.Id());
      assert !last.msg.MsgRegion?;
      hide Causes;
      assert w'.sent == shorter.sent + [last];
      assert p.sent <= shorter.sent;
      CausedReceives(id, p, shorter);
    } else {
      assert w'.sent == p.sent;
    }
  }

  /** Every subscriber of region data but one leaves the cache alone. */
  lemma {:induction false} RegionDelivered(bus: Bus, hs: seq<Component>, e: Region, w: World)
    requires Ok(w) && multiset(hs)[EnvironmentC] <= 1
    ensures Deliver(bus, hs, MsgRegion(e), w).env.cache
            == if EnvironmentC in hs then Store(w.env.cache, e) else w.env.cache
    decreases |hs|
  {
    hide Ok, Frame, Store;
    if hs != [] {
      var init, last := hs[..|hs| - 1], hs[|hs| - 1];
      assert hs == init + [last];
      RegionDelivered(bus, init, e, w);
      RegionHandled(bus, last, e, Deliver(bus, init, MsgRegion(e), w));
    }
  }

  lemma {:induction false} RegionHandled(bus: Bus, c: Component, e: Region, w: World)
    requires Ok(w)
    ensures Handle(bus, c, MsgRegion(e), w).env.cache
            == if c == EnvironmentC then Store(w.env.cache, e) else w.env.cache
  {
    hide RouteOk, Motor.Valid, Store, Deliver, Heat;
    if c == EnvironmentC {
      assert Handle(bus, c, MsgRegion(e), w) == EnvOnRegion(bus, e, w);
    }
  }

  /** The cache is what the received data amount to. */
  predicate Cached(w: World) {
    w.env.cache == CacheAfter(Received(w.sent))
  }

  lemma {:induction false} PublishReceives(bus: Bus, m: Msg, w: World)
    requires Ok(w) && MsgOk(m, w)
    ensures Received(Publish(bus, m, w).sent) == Received(w.sent) + if m.MsgRegion? then [m.region] else []
  {
    hide Ok, Publish, Received, Causes, Reports, Keeps;
    PublishTraffic(bus, m, w);
    CausedReceives(m.Id(), Post(m, w), Publish(bus, m, w));
    ReceivedSnoc(w.sent, Sent(m, w.now));
  }

  lemma {:induction false} PublishKeepsCache(bus: Bus, m: Msg, w: World)
    requires Ok(w) && MsgOk(m, w) && Wired(bus) && Cached(w)
    ensures Cached(Publish(bus, m, w))
  {
    hide Ok, Wired, Publish, Received, Store;
    PublishReceives(bus, m, w);
    if m.MsgRegion? {
      RegionStored(bus, m.region, w);
      var before := Received(w.sent);
      assert (before + [m.region])[..|before|] == before;
    } else {
      OthersKeepCache(bus, m, w);
      assert Received(w.sent) + [] == Received(w.sent);
    }
  }

  lemma {:induction false} OthersKeepCache(bus: Bus, m: Msg, w: World)
    requires Ok(w) && MsgOk(m, w) && !m.MsgRegion?
    ensures Publish(bus, m, w).env.cache == w.env.cache
  {
    hide Ok, Publish;
  }

  lemma {:induction false} RegionStored(bus: Bus, e: Region, w: World)
    requires Ok(w) && Wired(bus)
    ensures Publish(bus, MsgRegion(e), w).env.cache == Store(w.env.cache, e)
  {
    var hs := HandlersOf(bus, EnvironmentData);
    assert Once(hs, EnvironmentC, EnvironmentData in Subscribes(EnvironmentC));
    assert Ok(Post(MsgRegion(e), w));
    hide Ok, Frame, Store, Deliver;
    RegionDelivered(bus, hs, e, Post(MsgRegion(e), w));
  }

  lemma SameCache(w: World, w': World)
    requires Cached(w) && w'.env == w.env && w'.sent == w.sent
    ensures Cached(w')
  {
  }

  lemma {:induction false} EventKeepsCache(bus: Bus, e: Event, w: World)
    requires Ok(w) && Wired(bus) && Cached(w) && Proper(e)
    ensures Cached(On(bus, e, w))
  {
    hide Ok, Wired, Publish, Cached;
    if e.Serve? {
      PublishKeepsCache(bus, Message(e.a, w), w);
    } else {
      SameCache(w, On(bus, e, w));
    }
  }

  lemma {:induction false} RunKeepsCache(bus: Bus, es: seq<Event>, w: World)
    requires Ok(w) && Wired(bus) && Cached(w) && forall e | e in es :: Proper(e)
    ensures Cached(After(bus, es, w))
  {
    hide Ok, Wired, Cached, On, Proper;
    if es != [] {
      RunKeepsCache(bus, es[..|es| - 1], w);
      EventKeepsCache(bus, es[|es| - 1], After(bus, es[..|es| - 1], w));
    }
  }

  /**
    Over any run: the cache holds one entry per region, in the order of first receipt, each with the last
    data received; and the controller's pointer is null or refers to such an entry, so it shows the last data
    of its region.
   */
  lemma {:induction false} RunCacheIsLatest(bus: Bus, es: seq<Event>, w: World)
    requires Ok(w) && Wired(bus) && Cached(w) && forall e | e in es :: Proper(e)
    ensures var w' := After(bus, es, w);
            var received := Received(w'.sent);
            && Refines(w'.env.cache, LastPayload(received), FirstReceipts(received))
            && (w'.auto.env.Some? ==>
                  && w'.auto.env.value < |w'.env.cache|
                  && var entry := w'.env.cache[w'.auto.env.value];
                     entry.id in LastPayload(received) && LastPayload(received)[entry.id] == entry)
  {
    RunKeepsCache(bus, es, w);
    var w' := After(bus, es, w);
    assert w'.auto.env.Some? ==> w'.auto.env.value < |w'.env.cache|;
    CacheRefinesMap(Received(w'.sent));
    hide Ok, After, CacheAfter, LastPayload, FirstReceipts, Received, UniqueIds;
  }
}
