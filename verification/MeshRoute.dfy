/** A route over its position samples: no waypoint is missed, and the environment follows the position. */
module MeshRoute {
  import opened Wrappers
  import opened Messages
  import opened Physics
  import opened Environment
  import opened Route
  import opened Mesh
  import opened MeshTraffic

  /** With a single subscriber, the handler list is that subscriber. */
  lemma SoleHandler(bus: Bus, id: MsgId, c: Component)
    requires Wired(bus) && forall d: Component :: id in Subscribes(d) <==> d == c
    ensures HandlersOf(bus, id) == [c]
  {
    var hs := HandlersOf(bus, id);
    assert Once(hs, c, id in Subscribes(c));
    var k :| 0 <= k < |hs| && hs[k] == c;
    forall i | 0 <= i < |hs| ensures hs[i] == c {
      assert Once(hs, hs[i], id in Subscribes(hs[i]));
    }
    if |hs| > 1 {
      TwiceCounts(hs, c);
    }
  }

  lemma TwiceCounts(hs: seq<Component>, c: Component)
    requires |hs| > 1 && hs[0] == c == hs[1]
    ensures multiset(hs)[c] >= 2
  {
    assert hs == [hs[0]] + ([hs[1]] + hs[2..]);
  }

  /** The position, the node, and the pointer after a sample; everything the motor does leaves them alone. */
  lemma SampleAdvances(bus: Bus, x: real, w: World)
    requires Ok(w) && w.auto.active
    ensures var a, b := w.auto, Sample(bus, x, w).auto;
            var reached := Reached(a.cmd.route[a.idx].x, a.lastPos, x);
            && b.idx == a.idx + (if reached then 1 else 0)
            && b.lastPos == x && b.env == a.env
            && (!reached ==> b.from == a.from && b.seen == a.seen + [x])
  {
    hide RouteOk, Motor.Valid, Reached, NodeSequence;
  }

  lemma KinematicsAdvances(bus: Bus, k: Kinematics, w: World)
    requires Ok(w) && w.auto.active
    ensures var x, a, b := Metres(k.position), w.auto, AutoOnKinematics(bus, k, w).auto;
            var reached := Reached(a.cmd.route[a.idx].x, a.lastPos, x);
            && b.idx == a.idx + (if reached then 1 else 0)
            && b.lastPos == x
            && (!reached ==> b.from == a.from && b.seen == a.seen + [x])
  {
    ActiveHasNode(w);
    hide Ok, Reached, Sample;
    SampleAdvances(bus, Metres(k.position), AskEnvironment(bus, Metres(k.position), w));
  }

  lemma ActiveHasNode(w: World)
    requires Ok(w) && w.auto.active
    ensures w.auto.idx < w.auto.cmd.numNodes <= MAX_NODES
  {
  }

  /** `x` is on the target, within 0.1 m of it, or past it as seen from `y`. */
  predicate Crosses(target: real, y: real, x: real) {
    !SameSide(target, y, x) || !Away(target, x)
  }

  /**
    While a node is current, the last position before it and all samples since lie strictly on one side of its
    target, the samples at least 0.1 m away from it. The next sample therefore reaches the node exactly when it
    crosses with respect to the last position before the node, and then it also crosses with respect to every
    sample since; it advances the route by this one node and no more.
   */
  lemma NoMissedWaypoint(bus: Bus, k: Kinematics, w: World)
    requires Ok(w) && w.auto.active
    ensures var a, b, x := w.auto, AutoOnKinematics(bus, k, w).auto, Metres(k.position);
            var target := a.cmd.route[a.idx].x;
            && (forall i | 0 <= i < |a.seen| :: SameSide(target, a.from, a.seen[i]) && Away(target, a.seen[i]))
            && (Crosses(target, a.from, x) <==> b.idx == a.idx + 1)
            && (!Crosses(target, a.from, x) <==> b.idx == a.idx && b.seen == a.seen + [x])
            && (forall i | 0 <= i < |a.seen| :: Crosses(target, a.seen[i], x) <==> Crosses(target, a.from, x))
  {
    ActiveHasNode(w);
    KinematicsAdvances(bus, k, w);
    var a, x := w.auto, Metres(k.position);
    ReachedExactly(a.cmd.route[a.idx].x, a.lastPos, x);
    assert ApproachOk(a);
    hide AutoOnKinematics, Reached, ProgressOk, StatsOk, EnvsOk, Motor.Valid, Metres;
  }

  // ---- environment tracking ------------------------------------------------------------------------

  predicate CoversX(e: Region, x: real) { e.minX <= x <= e.maxX }

  lemma DeliverOne(bus: Bus, c: Component, m: Msg, w: World)
    requires Ok(w) && MsgOk(m, w)
    ensures Deliver(bus, [c], m, w) == Handle(bus, c, m, w)
  {
    hide Ok, Frame, Handle;
    assert [c][..0] == [];
    assert Deliver(bus, [], m, w) == w;
  }

  lemma FoundEnters(bus: Bus, entry: nat, w: World)
    requires Ok(w) && entry < |w.env.cache|
    ensures Handle(bus, AutonomousC, MsgFound(entry), w).auto.env == Some(entry)
  {
    hide RouteOk, Motor.Valid, NodeSequence;
  }

  /** Announcing an entry points the controller at it. */
  lemma {:induction false} FoundPoints(bus: Bus, entry: nat, w: World)
    requires Ok(w) && entry < |w.env.cache| && Wired(bus)
    ensures Publish(bus, MsgFound(entry), w).auto.env == Some(entry)
  {
    SoleHandler(bus, InternalEnvData, AutonomousC);
    var w1 := w.(sent := w.sent + [Sent(MsgFound(entry), w.now)]);
    assert Ok(w1);
    hide Ok, Frame, Handle;
    FoundEnters(bus, entry, w1);
    DeliverOne(bus, AutonomousC, MsgFound(entry), w1);
  }

  lemma {:induction false} LookupFinds(bus: Bus, x: real, w: World)
    requires Ok(w) && Wired(bus) && Lookup(w.env.cache, x, 0.0).Some?
    ensures Handle(bus, EnvironmentC, MsgLookup(x, 0.0), w).auto.env == Lookup(w.env.cache, x, 0.0)
  {
    hide Ok, Frame, Publish, Covers;
    FoundPoints(bus, Lookup(w.env.cache, x, 0.0).value, w);
  }

  /** A lookup with a covering entry in the cache leaves the controller at the first such entry. */
  lemma {:induction false} LookupPoints(bus: Bus, x: real, w: World)
    requires Ok(w) && Wired(bus) && Lookup(w.env.cache, x, 0.0).Some?
    ensures Publish(bus, MsgLookup(x, 0.0), w).auto.env == Lookup(w.env.cache, x, 0.0)
  {
    var m := MsgLookup(x, 0.0);
    SoleHandler(bus, InternalEnvRequest, EnvironmentC);
    var w1 := w.(sent := w.sent + [Sent(m, w.now)]);
    assert Ok(w1);
    hide Ok, Frame, Handle;
    LookupFinds(bus, x, w1);
    DeliverOne(bus, EnvironmentC, m, w1);
  }

  lemma AskPoints(bus: Bus, x: real, w: World)
    requires Ok(w) && Wired(bus) && w.auto.cmd.tuning && Lookup(w.env.cache, x, 0.0).Some?
    ensures var w1 := AskEnvironment(bus, x, w);
            w1.env.cache == w.env.cache && w1.auto.env.Some? && w1.auto.env.value < |w.env.cache|
              && CoversX(w.env.cache[w1.auto.env.value], x)
  {
    if OffMap(w.auto, w.env.cache, x) {
      LookupPoints(bus, x, w);
    }
    hide RouteOk, Motor.Valid, Lookup;
  }

  /**
    After a sample on an active route with tuning on: if any region in the cache covers (x, 0), the current
    environment is a cache entry whose x-range covers the position.
   */
  lemma EnvironmentFollows(bus: Bus, k: Kinematics, w: World, e: nat)
    requires Ok(w) && Wired(bus) && w.auto.active && w.auto.cmd.tuning
    requires e < |w.env.cache| && Covers(w.env.cache[e], Metres(k.position), 0.0)
    ensures var w' := AutoOnKinematics(bus, k, w);
            && w'.env.cache == w.env.cache && w'.auto.env.Some? && w'.auto.env.value < |w'.env.cache|
            && CoversX(w'.env.cache[w'.auto.env.value], Metres(k.position))
  {
    var x := Metres(k.position);
    ActiveHasNode(w);
    AskPoints(bus, x, w);
    SampleAdvances(bus, x, AskEnvironment(bus, x, w));
    hide Ok, Sample, AskEnvironment, CoversX, Metres;
  }

  // ---- one tick, one sample --------------------------------------------------------------------------

  lemma {:induction false} KinematicsDelivered(bus: Bus, hs: seq<Component>, k: Kinematics, w: World)
    requires Ok(w) && multiset(hs)[AutonomousC] <= 1
    ensures Deliver(bus, hs, MsgKinematics(k), w) == if AutonomousC in hs then AutoOnKinematics(bus, k, w) else w
    decreases |hs|
  {
    hide Ok, Frame, AutoOnKinematics;
    if hs != [] {
      var init, last := hs[..|hs| - 1], hs[|hs| - 1];
      assert hs == init + [last];
      KinematicsDelivered(bus, init, k, w);
      KinematicsHandled(bus, last, k, Deliver(bus, init, MsgKinematics(k), w));
    }
  }

  lemma {:induction false} KinematicsHandled(bus: Bus, c: Component, k: Kinematics, w: World)
    requires Ok(w)
    ensures Handle(bus, c, MsgKinematics(k), w) == if c == AutonomousC then AutoOnKinematics(bus, k, w) else w
  {
    hide Ok, Frame, AutoOnKinematics;
  }

  function Position(w: World): Kinematics {
    Report(w.kin)
  }

  lemma {:induction false} RequestHandled(bus: Bus, w: World)
    requires Ok(w) && Wired(bus)
    ensures Ok(Post(MsgKinematicsRequest, w))
    ensures Publish(bus, MsgKinematicsRequest, w) == KinOnRequest(bus, Post(MsgKinematicsRequest, w))
  {
    SoleHandler(bus, KinematicsRequest, KinematicsC);
    var w0 := Post(MsgKinematicsRequest, w);
    assert Ok(w0);
    hide Ok, Frame, Wired;
    DeliverOne(bus, KinematicsC, MsgKinematicsRequest, w0);
    assert Handle(bus, KinematicsC, MsgKinematicsRequest, w0) == KinOnRequest(bus, w0);
    hide Handle, KinOnRequest, Deliver;
  }

  lemma {:induction false} DataHandled(bus: Bus, k: Kinematics, w: World)
    requires Ok(w) && Wired(bus)
    ensures Ok(Post(MsgKinematics(k), w))
    ensures Publish(bus, MsgKinematics(k), w) == AutoOnKinematics(bus, k, Post(MsgKinematics(k), w))
  {
    var hs := HandlersOf(bus, KinematicsData);
    assert Once(hs, AutonomousC, KinematicsData in Subscribes(AutonomousC));
    var w1 := Post(MsgKinematics(k), w);
    assert Ok(w1);
    hide Ok, Frame, Wired, AutoOnKinematics, Deliver;
    KinematicsDelivered(bus, hs, k, w1);
  }

  /**
    A request for the kinematics hands the current position to the controller, exactly once, in every handler order.
   */
  lemma {:induction false} RequestSamples(bus: Bus, w: World)
    requires Ok(w) && Wired(bus)
    ensures var w1 := Post(MsgKinematics(Position(w)), Post(MsgKinematicsRequest, w));
            Ok(w1) && Publish(bus, MsgKinematicsRequest, w) == AutoOnKinematics(bus, Position(w), w1)
  {
    var w0 := Post(MsgKinematicsRequest, w);
    hide Ok, Frame, Wired, AutoOnKinematics, Publish;
    RequestHandled(bus, w);
    DataHandled(bus, Position(w), w0);
    assert KinOnRequest(bus, w0) == Publish(bus, MsgKinematics(Position(w)), w0);
  }

  /** A tick on an active route takes one sample of the position, and so advances by at most one node. */
  lemma {:induction false} TickSamples(bus: Bus, w: World)
    requires Ok(w) && Wired(bus) && w.auto.active
    ensures var a, b, x := w.auto, AutoOnTick(bus, w).auto, Metres(w.kin.position);
            && b.idx == a.idx + (if Reached(a.cmd.route[a.idx].x, a.lastPos, x) then 1 else 0)
            && b.lastPos == x
  {
    ActiveHasNode(w);
    hide Ok, Frame, Reached, AutoOnKinematics, Wired, Publish, KinOnRequest;
    var w1 := Post(MsgKinematics(Position(w)), Post(MsgKinematicsRequest, w));
    RequestSamples(bus, w);
    KinematicsAdvances(bus, Position(w), w1);
    PowerKeepsRoute(bus, Publish(bus, MsgKinematicsRequest, w));
  }

  lemma {:induction false} PowerKeepsRoute(bus: Bus, w: World)
    requires Ok(w)
    ensures SameRoute(w.auto, Publish(bus, MsgPowerRequest, w).auto)
  {
    hide Ok, Publish;
  }
}
