/** The region cache over every interleaving of the threads. */
module ThreadCache {
  import opened Wrappers
  import opened Messages
  import opened Motor
  import opened Physics
  import opened Environment
  import opened Route
  import opened Mesh
  import opened Threads
  import opened ThreadTraffic

  /** The region that an action stores, under the lock of EnvironmentService. */
  function StoredBy(a: Act): seq<Region> {
    match a
    case Call(EnvironmentC, MsgRegion(e)) => [e]
    case _ => []
  }

  /** Every region stored in the first `k` moves, in the order of the critical sections. */
  function Stored(states: seq<Sys>, moves: seq<Move>, k: nat): seq<Region>
    requires k <= |moves| < |states|
  {
    if k == 0 then []
    else
      var a := TakenAct(states[k - 1], moves[k - 1]);
      Stored(states, moves, k - 1) + if a.Some? then StoredBy(a.value) else []
  }

  lemma DoStores(bus: Bus, a: Act, rest: Todo, w: World)
    requires Ok(w) && Fits(a, w)
    ensures var w' := Do(bus, a, rest, w).0;
            w'.env.cache == if StoredBy(a) == [] then w.env.cache else Store(w.env.cache, StoredBy(a)[0])
  {
    hide Ok, Begin, CheckNode, Store;
    if a.Call? {
      if a.c == AutonomousC {
        AutonomousStores(a.m, rest, w);
      } else if a.c == EnvironmentC {
        EnvironmentStores(a.m, rest, w);
      } else {
        OtherStores(a.c, a.m, rest, w);
      }
    } else if a.Check? {
      CheckStores(a.x, rest, w);
    }
  }

  lemma AutonomousStores(m: Msg, rest: Todo, w: World)
    requires Ok(w) && MsgOk(m, w)
    ensures Begin(AutonomousC, m, rest, w).0.env == w.env
  {
    hide Ok, NodeSequence, OffMap, Metres, Start, Enter;
  }

  lemma EnvironmentStores(m: Msg, rest: Todo, w: World)
    requires Ok(w) && MsgOk(m, w)
    ensures Begin(EnvironmentC, m, rest, w).0.env.cache
            == if m.MsgRegion? then Store(w.env.cache, m.region) else w.env.cache
  {
    hide Ok, Lookup, Store;
  }

  lemma OtherStores(c: Component, m: Msg, rest: Todo, w: World)
    requires Ok(w) && MsgOk(m, w) && c != EnvironmentC && c != AutonomousC
    ensures Begin(c, m, rest, w).0.env == w.env
  {
    hide Ok, OnSequence, OnTick, Heat, Integrate, KinOnStatus, PowerOnStatus;
  }

  lemma CheckStores(x: real, rest: Todo, w: World)
    requires Ok(w) && w.auto.active
    ensures CheckNode(x, rest, w).0.env == w.env
  {
    hide Ok, Reached, NodeSequence;
  }

  /** What is in the cache, if it was filled by `received`. */
  predicate Holds(s: Sys, received: seq<Region>) {
    s.w.env.cache == CacheAfter(received)
  }

  lemma StepHolds(bus: Bus, s: Sys, mv: Move, s': Sys, received: seq<Region>)
    requires Step(bus, s, mv, s') && Holds(s, received)
    ensures var a := TakenAct(s, mv); Holds(s', received + if a.Some? then StoredBy(a.value) else [])
  {
    var a := TakenAct(s, mv);
    var more := if a.Some? then StoredBy(a.value) else [];
    if mv.Take? {
      DoStores(bus, s.threads[mv.i].a, s.threads[mv.i].rest, s.w);
    }
    hide Do, Sane, Enabled, Store;
    if more == [] {
      assert received + more == received;
    } else {
      assert (received + more)[..|received|] == received;
    }
  }

  /**
    In every state of every interleaving the cache is what the regions stored so far amount to, in the order of
    their critical sections: one entry per region, in order of first receipt, with the last payload; and the
    controller's pointer is null or shows the last payload of its region.
   */
  lemma {:induction false} RunsCacheTheLatest(bus: Bus, states: seq<Sys>, moves: seq<Move>, k: nat,
      received: seq<Region>)
    requires Run(bus, states, moves) && k < |states| && Holds(states[0], received) && Ok(states[0].w)
    ensures var all := received + Stored(states, moves, k);
            var w := states[k].w;
            && Holds(states[k], all) && Refines(w.env.cache, LastPayload(all), FirstReceipts(all))
            && Ok(w) && (w.auto.env.Some? ==> Latest(w.env.cache, w.auto.env.value, all))
  {
    hide Can, Make, Sane, Refines, Holds, Latest, Ok;
    if k == 0 {
      assert received + [] == received;
    } else {
      RunsCacheTheLatest(bus, states, moves, k - 1, received);
      assert Step(bus, states[k - 1], moves[k - 1], states[k]);
      var before := received + Stored(states, moves, k - 1);
      StepHolds(bus, states[k - 1], moves[k - 1], states[k], before);
      StepOk(bus, states[k - 1], moves[k - 1], states[k]);
      hide Step, StoredBy, TakenAct;
      var a := TakenAct(states[k - 1], moves[k - 1]);
      var more := if a.Some? then StoredBy(a.value) else [];
      assert received + Stored(states, moves, k) == before + more;
    }
    PointerIsLatest(states[k], received + Stored(states, moves, k));
  }

  lemma StepOk(bus: Bus, s: Sys, mv: Move, s': Sys)
    requires Step(bus, s, mv, s')
    ensures Ok(s'.w)
  {
    if mv.Take? {
      DoOk(bus, s.threads[mv.i].a, s.threads[mv.i].rest, s.w);
      hide Do, Enabled, RouteOk, Motor.Valid;
    } else {
      hide RouteOk, Motor.Valid, Enabled;
    }
  }

  /** The entry shows the last payload of its region. */
  predicate Latest(cache: seq<Region>, i: nat, received: seq<Region>) {
    i < |cache| && cache[i].id in LastPayload(received) && LastPayload(received)[cache[i].id] == cache[i]
  }

  lemma PointerIsLatest(s: Sys, received: seq<Region>)
    requires Ok(s.w) && Holds(s, received)
    ensures Refines(s.w.env.cache, LastPayload(received), FirstReceipts(received))
    ensures s.w.auto.env.Some? ==> Latest(s.w.env.cache, s.w.auto.env.value, received)
  {
    CacheRefinesMap(received);
    hide RouteOk, Motor.Valid, CacheAfter, LastPayload, FirstReceipts, UniqueIds;
  }
}
