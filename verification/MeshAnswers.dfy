/** What requests, statuses and region data are answered with, and whom they reach, in every handler order. */
module MeshAnswers {
  import opened Wrappers
  import opened Messages
  import opened Motor
  import opened Physics
  import opened Environment
  import opened Route
  import opened Mesh
  import opened MeshTraffic
  import opened MeshRoute
  import opened MeshRun
  import opened MeshCache
  import opened MeshMotion
  import opened MeshCommands
  import opened Threads
  import opened ThreadAlone

  lemma CalledOnce(bus: Bus, id: MsgId, c: Component)
    requires Wired(bus) && id in Subscribes(c)
    ensures multiset(HandlersOf(bus, id))[c] == 1 && c in HandlersOf(bus, id)
  {
    assert Once(HandlersOf(bus, id), c, id in Subscribes(c));
    hide Subscribes, HandlersOf;
  }

  // ---- requests ------------------------------------------------------------------------------------

  /** Nobody but the bridge takes these answers. */
  lemma {:induction false} OutgoingSilent(bus: Bus, hs: seq<Component>, m: Msg, w: World)
    requires Ok(w) && (m.MsgThermal? || m.MsgState? || m.MsgRegionAck?)
    ensures Deliver(bus, hs, m, w) == w
    decreases |hs|
  {
    hide Frame, Ok, Handle;
    if hs != [] {
      OutgoingSilent(bus, hs[..|hs| - 1], m, w);
      OutgoingHandled(bus, hs[|hs| - 1], m, w);
    }
  }

  lemma OutgoingHandled(bus: Bus, c: Component, m: Msg, w: World)
    requires Ok(w) && (m.MsgThermal? || m.MsgState? || m.MsgRegionAck?)
    ensures Handle(bus, c, m, w) == w
  {
    hide Frame, Ok;
  }

  lemma {:induction false} OutgoingPublished(bus: Bus, m: Msg, w: World)
    requires Ok(w) && (m.MsgThermal? || m.MsgState? || m.MsgRegionAck?)
    ensures Publish(bus, m, w) == Post(m, w)
  {
    assert Ok(Post(m, w));
    hide Frame, Ok, HandlersOf, Deliver;
    OutgoingSilent(bus, HandlersOf(bus, m.Id()), m, Post(m, w));
  }

  /** A request for the temperatures or the state is answered once, and changes nothing. */
  lemma {:induction false} ReadersAnswer(bus: Bus, w: World)
    requires Ok(w) && Wired(bus)
    ensures var answer := MsgThermal(w.thermal.motor, w.thermal.battery);
            Publish(bus, MsgThermalRequest, w) == Post(answer, Post(MsgThermalRequest, w))
    ensures Publish(bus, MsgStateRequest, w) == Post(MsgState(w.state.executing), Post(MsgStateRequest, w))
  {
    hide Ok, Wired, Publish, Handle;
    ThermalAnswers(bus, w);
    StateAnswers(bus, w);
  }

  lemma {:induction false} ThermalAnswers(bus: Bus, w: World)
    requires Ok(w) && Wired(bus)
    ensures var answer := MsgThermal(w.thermal.motor, w.thermal.battery);
            Publish(bus, MsgThermalRequest, w) == Post(answer, Post(MsgThermalRequest, w))
  {
    SoleServed(bus, MsgThermalRequest, ThermalC, w);
    hide Ok, Wired, Frame, Publish;
    OutgoingPublished(bus, MsgThermal(w.thermal.motor, w.thermal.battery), Post(MsgThermalRequest, w));
  }

  lemma {:induction false} StateAnswers(bus: Bus, w: World)
    requires Ok(w) && Wired(bus)
    ensures Publish(bus, MsgStateRequest, w) == Post(MsgState(w.state.executing), Post(MsgStateRequest, w))
  {
    SoleServed(bus, MsgStateRequest, StateC, w);
    hide Ok, Wired, Frame, Publish;
    OutgoingPublished(bus, MsgState(w.state.executing), Post(MsgStateRequest, w));
  }

  /** The watts of a reading over the ten milliseconds of a tick, in joules. */
  function Joules(p: Power): real { p.voltage * p.current / 100.0 }

  predicate Integrated(p: Power, w: World, w': World, added: bool) {
    w' == w.(auto := w.auto.(energy := w.auto.energy + if added then Joules(p) else 0.0))
  }

  lemma {:induction false} PowerDelivered(bus: Bus, hs: seq<Component>, p: Power, w: World)
    requires Ok(w) && multiset(hs)[AutonomousC] <= 1
    ensures Integrated(p, w, Deliver(bus, hs, MsgPower(p), w), AutonomousC in hs)
    decreases |hs|
  {
    hide Ok, Frame, Handle, Joules;
    if hs != [] {
      var init, last := hs[..|hs| - 1], hs[|hs| - 1];
      assert hs == init + [last];
      PowerDelivered(bus, init, p, w);
      PowerHandled(bus, last, p, Deliver(bus, init, MsgPower(p), w));
    }
  }

  lemma PowerHandled(bus: Bus, c: Component, p: Power, w: World)
    requires Ok(w)
    ensures Integrated(p, w, Handle(bus, c, MsgPower(p), w), c == AutonomousC)
  {
    hide Ok, Frame;
  }

  /** A request for the power is answered once, and the controller adds the reading's energy once. */
  lemma {:induction false} PowerAnswers(bus: Bus, w: World)
    requires Ok(w) && Wired(bus)
    ensures var p := Power(w.power.cmdId, w.power.voltage, w.power.current);
            Integrated(p, Post(MsgPower(p), Post(MsgPowerRequest, w)), Publish(bus, MsgPowerRequest, w), true)
  {
    hide *;
    var p := Power(w.power.cmdId, w.power.voltage, w.power.current);
    var w1 := Post(MsgPowerRequest, w);
    PowerServed(bus, w);
    PowerGoes(bus, p, w1);
    PublishedByDelivery(bus, MsgPower(p), w1);
    PowerDelivered(bus, HandlersOf(bus, PowerData), p, Post(MsgPower(p), w1));
  }

  lemma PowerGoes(bus: Bus, p: Power, w: World)
    requires Wired(bus)
    ensures MsgOk(MsgPower(p), w) && MsgPower(p).Id() == PowerData
    ensures multiset(HandlersOf(bus, PowerData))[AutonomousC] == 1 && AutonomousC in HandlersOf(bus, PowerData)
  {
    CalledOnce(bus, PowerData, AutonomousC);
  }

  lemma {:induction false} PowerServed(bus: Bus, w: World)
    requires Ok(w) && Wired(bus)
    ensures var p := Power(w.power.cmdId, w.power.voltage, w.power.current);
            && Ok(Post(MsgPowerRequest, w))
            && Publish(bus, MsgPowerRequest, w) == Publish(bus, MsgPower(p), Post(MsgPowerRequest, w))
  {
    SoleServed(bus, MsgPowerRequest, PowerC, w);
    hide Ok, Frame, Wired, Publish;
  }

  /** A request for the kinematics is answered once, first of all, with the values of that moment. */
  lemma {:induction false} KinematicsAnswers(bus: Bus, w: World)
    requires Ok(w) && Wired(bus)
    ensures var w', k := Publish(bus, MsgKinematicsRequest, w), w.kin;
            && |w'.sent| > |w.sent| + 1
            && w'.sent[|w.sent| + 1]
               == Sent(MsgKinematics(Kinematics(k.cmdId, k.elapsed, k.position, k.speed)), w.now)
            && Count(w'.sent, KinematicsData) == Count(w.sent, KinematicsData) + 1
  {
    var m, k := MsgKinematicsRequest, MsgKinematics(Position(w));
    var w1 := Post(m, w);
    RequestHandled(bus, w);
    assert KinOnRequest(bus, w1) == Publish(bus, k, w1);
    hide Ok, Wired, Frame, Publish, KinOnRequest, Count, Caused;
    CausedBy(bus, k, w1);
    CountCaused(KinematicsData, Post(k, w1), Publish(bus, k, w1), KinematicsData);
    CountSnoc(w1.sent, Sent(k, w1.now), KinematicsData);
    CountSnoc(w.sent, Sent(m, w.now), KinematicsData);
  }

  /** On an active route a tick asks for the kinematics first, and for the power last. */
  lemma {:induction false} TickAsks(bus: Bus, w: World)
    requires Ok(w) && Wired(bus) && w.auto.active
    ensures var w' := AutoOnTick(bus, w);
            var n := |w'.sent|;
            && n > |w.sent| + 2 && w'.sent[|w.sent|].msg == MsgKinematicsRequest
            && w'.sent[n - 2].msg == MsgPowerRequest
            && w'.sent[n - 1].msg == MsgPower(Power(w'.power.cmdId, w'.power.voltage, w'.power.current))
  {
    var w1 := Publish(bus, MsgKinematicsRequest, w);
    hide *;
    TickRequests(bus, w);
    CausedBy(bus, MsgKinematicsRequest, w);
    PowerSends(bus, w1);
    LastTwo(w1.sent, Sent(MsgPowerRequest, w1.now),
            Sent(MsgPower(Power(w1.power.cmdId, w1.power.voltage, w1.power.current)), w1.now));
  }

  lemma LastTwo(s: seq<Sent>, a: Sent, b: Sent)
    ensures var t := (s + [a]) + [b];
            |t| == |s| + 2 && t[|t| - 2] == a && t[|t| - 1] == b && forall i | 0 <= i < |s| :: t[i] == s[i]
  {
  }

  lemma {:induction false} TickRequests(bus: Bus, w: World)
    requires Ok(w) && w.auto.active
    ensures MsgOk(MsgKinematicsRequest, w)
    ensures AutoOnTick(bus, w) == Publish(bus, MsgPowerRequest, Publish(bus, MsgKinematicsRequest, w))
  {
    hide Ok, Frame, Publish;
  }

  lemma {:induction false} PowerSends(bus: Bus, w: World)
    requires Ok(w) && Wired(bus)
    ensures var w', p := Publish(bus, MsgPowerRequest, w), Power(w.power.cmdId, w.power.voltage, w.power.current);
            w'.power == w.power && w'.sent == (w.sent + [Sent(MsgPowerRequest, w.now)]) + [Sent(MsgPower(p), w.now)]
  {
    PowerAnswers(bus, w);
    hide Ok, Wired, Publish, Joules;
  }

  // ---- a status ------------------------------------------------------------------------------------

  /** What a motor status tells the cache, the kinematics and the power service. */
  predicate Told(s: Status, w: World, w': World, state: bool, kin: bool, power: bool) {
    && w'.state == (if state then StateCache(s.active, s.cmdId, s.rpm, s.active) else w.state)
    && w'.power == (if power then PowerState(s.cmdId, w.power.voltage, if s.active then w.power.current else 0.0)
                    else w.power)
    && w'.kin.position == w.kin.position
    && (if !kin then w'.kin == w.kin
        else if s.active then
          && w'.kin.speed == w.kin.speed && w'.kin.cmdId == s.cmdId
          && w'.kin.elapsed == if s.cmdId == w.kin.cmdId then w.kin.elapsed else 0
        else w'.kin == w.kin.(speed := 0))
    && w' == w.(state := w'.state, kin := w'.kin, power := w'.power)
  }

  lemma StatusHandledTells(bus: Bus, c: Component, s: Status, w: World)
    requires Ok(w)
    ensures Told(s, w, Handle(bus, c, MsgStatus(s), w), c == StateC, c == KinematicsC, c == PowerC)
  {
    hide Ok, Frame;
  }

  lemma {:induction false} StatusDelivered(bus: Bus, hs: seq<Component>, s: Status, w: World)
    requires Ok(w) && multiset(hs)[KinematicsC] <= 1 && multiset(hs)[PowerC] <= 1
    ensures Told(s, w, Deliver(bus, hs, MsgStatus(s), w), StateC in hs, KinematicsC in hs, PowerC in hs)
    decreases |hs|
  {
    hide Ok, Frame, Handle;
    if hs != [] {
      var init, last := hs[..|hs| - 1], hs[|hs| - 1];
      assert hs == init + [last];
      StatusDelivered(bus, init, s, w);
      StatusHandledTells(bus, last, s, Deliver(bus, init, MsgStatus(s), w));
    }
  }

  /** A motor status reaches the cache, the kinematics and the power service, and changes nothing else. */
  lemma {:induction false} StatusReaches(bus: Bus, s: Status, w: World)
    requires Ok(w) && Wired(bus)
    ensures Told(s, Post(MsgStatus(s), w), Publish(bus, MsgStatus(s), w), true, true, true)
  {
    CalledOnce(bus, MotorStatus, StateC);
    CalledOnce(bus, MotorStatus, KinematicsC);
    CalledOnce(bus, MotorStatus, PowerC);
    hide Ok, Frame, Wired, Deliver, Told, HandlersOf, Publish;
    PublishedByDelivery(bus, MsgStatus(s), w);
    StatusDelivered(bus, HandlersOf(bus, MotorStatus), s, Post(MsgStatus(s), w));
  }

  // ---- region data ---------------------------------------------------------------------------------

  /** What region data do to the cache, the acknowledgements and the ambient temperature. */
  predicate Learnt(e: Region, w: World, w': World, env: bool, thermal: bool) {
    && w'.env.cache == (if env then Store(w.env.cache, e) else w.env.cache)
    && w'.sent == (if env then w.sent + [Sent(MsgRegionAck(e.id), w.now)] else w.sent)
    && w'.thermal == (if thermal then ThermalState(e.ambient, w.thermal.motor, w.thermal.battery) else w.thermal)
    && w' == w.(env := w.env.(cache := w'.env.cache), sent := w'.sent, thermal := w'.thermal)
  }

  lemma {:induction false} RegionHandledTeaches(bus: Bus, c: Component, e: Region, w: World)
    requires Ok(w)
    ensures Learnt(e, w, Handle(bus, c, MsgRegion(e), w), c == EnvironmentC, c == ThermalC)
  {
    var w1 := w.(env := w.env.(cache := Store(w.env.cache, e)));
    assert Ok(w1);
    hide RouteOk, Motor.Valid, Frame, Store, Publish;
    OutgoingPublished(bus, MsgRegionAck(e.id), w1);
  }

  lemma {:induction false} RegionDeliveredTeaches(bus: Bus, hs: seq<Component>, e: Region, w: World)
    requires Ok(w) && multiset(hs)[EnvironmentC] <= 1
    ensures Learnt(e, w, Deliver(bus, hs, MsgRegion(e), w), EnvironmentC in hs, ThermalC in hs)
    decreases |hs|
  {
    hide Ok, Frame, Handle, Store;
    if hs != [] {
      var init, last := hs[..|hs| - 1], hs[|hs| - 1];
      assert hs == init + [last];
      RegionDeliveredTeaches(bus, init, e, w);
      RegionHandledTeaches(bus, last, e, Deliver(bus, init, MsgRegion(e), w));
    }
  }

  /** Region data are stored, acknowledged once with their id, and set the ambient temperature; nothing else changes. */
  lemma {:induction false} RegionTeaches(bus: Bus, e: Region, w: World)
    requires Ok(w) && Wired(bus)
    ensures Learnt(e, Post(MsgRegion(e), w), Publish(bus, MsgRegion(e), w), true, true)
  {
    CalledOnce(bus, EnvironmentData, EnvironmentC);
    CalledOnce(bus, EnvironmentData, ThermalC);
    hide Ok, Frame, Wired, Deliver, Learnt, HandlersOf, Publish, Msg.Id, Subscribes;
    PublishedByDelivery(bus, MsgRegion(e), w);
    RegionDeliveredTeaches(bus, HandlersOf(bus, EnvironmentData), e, Post(MsgRegion(e), w));
  }

  // ---- the map in metres ---------------------------------------------------------------------------

  /**
    A lookup answers with the first entry whose rectangle, borders included, holds the point; a miss asks outside,
    for that point, exactly when the last request is more than half a second ago.
   */
  lemma {:induction false} LookupFindsFirst(bus: Bus, x: real, y: real, w: World)
    requires Ok(w) && Wired(bus)
    ensures var w', cache := Publish(bus, MsgLookup(x, y), w), w.env.cache;
            var inside := (e: Region) => e.minX <= x <= e.maxX && e.minY <= y <= e.maxY;
            && (forall i | 0 <= i < |cache| && inside(cache[i]) && (forall j | 0 <= j < i :: !inside(cache[j])) ::
                  |w'.sent| > |w.sent| + 1 && w'.sent[|w.sent| + 1] == Sent(MsgFound(i), w.now))
            && ((forall i | 0 <= i < |cache| :: !inside(cache[i])) ==>
                  w'.sent == w.sent + [Sent(MsgLookup(x, y), w.now)]
                    + if w.now - w.env.lastRequest > 500_000_000 then [Sent(MsgRegionRequest(x, y), w.now)] else [])
  {
    LookupServed(bus, x, y, w);
    LookupIs(w.env.cache, x, y);
    hide Ok, Wired, Frame, Publish, EnvOnLookup, Lookup, Covers;
    LookupSends(bus, x, y, Post(MsgLookup(x, y), w));
  }

  lemma LookupIs(cache: seq<Region>, x: real, y: real)
    ensures var inside := (e: Region) => e.minX <= x <= e.maxX && e.minY <= y <= e.maxY;
            && (forall i | 0 <= i < |cache| && inside(cache[i]) && (forall j | 0 <= j < i :: !inside(cache[j])) ::
                  Lookup(cache, x, y) == Some(i))
            && ((forall i | 0 <= i < |cache| :: !inside(cache[i])) ==> Lookup(cache, x, y) == None)
  {
    var hit := Lookup(cache, x, y);
    if hit.Some? {
      assert Covers(cache[hit.value], x, y) && forall j | 0 <= j < hit.value :: !Covers(cache[j], x, y);
    } else {
      assert forall j | 0 <= j < |cache| :: !Covers(cache[j], x, y);
    }
  }

  lemma {:induction false} LookupServed(bus: Bus, x: real, y: real, w: World)
    requires Ok(w) && Wired(bus)
    ensures Ok(Post(MsgLookup(x, y), w))
    ensures Publish(bus, MsgLookup(x, y), w) == EnvOnLookup(bus, x, y, Post(MsgLookup(x, y), w))
  {
    SoleServed(bus, MsgLookup(x, y), EnvironmentC, w);
    hide Ok, Wired, Frame, EnvOnLookup, Publish;
  }

  lemma {:induction false} LookupSends(bus: Bus, x: real, y: real, w: World)
    requires Ok(w)
    ensures var w', hit := EnvOnLookup(bus, x, y, w), Lookup(w.env.cache, x, y);
            && (hit.Some? ==> |w'.sent| > |w.sent| && w.sent <= w'.sent
                              && w'.sent[|w.sent|] == Sent(MsgFound(hit.value), w.now))
            && (hit.None? ==> w'.sent == w.sent + if w.now - w.env.lastRequest > 500_000_000
                                                  then [Sent(MsgRegionRequest(x, y), w.now)] else [])
  {
    var hit := Lookup(w.env.cache, x, y);
    hide Ok, Frame, Publish, Covers, Traffic, Caused;
    if hit.Some? {
      CausedBy(bus, MsgFound(hit.value), w);
    } else if w.now - w.env.lastRequest > THROTTLE {
      RequestTraffic(bus, x, y, w);
    }
  }

  // ---- speed, supply and position after a tick ---------------------------------------------------------

  /** The speed of the tick and the reading of the supply, unless the motor has stopped. */
  predicate Ticking(t: Tick, w: World, kin: bool, power: bool) {
    && (kin && w.motor.active ==> w.kin.speed == t.rpm)
    && (power ==> w.power.voltage == w.supply.0 && (w.motor.active ==> w.power.current == w.supply.1))
  }

  lemma {:induction false} TickHandledReads(bus: Bus, c: Component, t: Tick, w: World, kin: bool, power: bool)
    requires Ok(w) && Wired(bus) && !w.auto.active && Ticking(t, w, kin, power)
    ensures var w' := Handle(bus, c, MsgTick(t), w);
            Ticking(t, w', kin || c == KinematicsC, power || c == PowerC) && !w'.auto.active
  {
    if c == MotorC {
      MotorReads(bus, t, w, kin, power);
    }
    hide Ok, Frame, MotorOnTick, Heat, OnTick, Wired;
  }

  lemma {:induction false} MotorReads(bus: Bus, t: Tick, w: World, kin: bool, power: bool)
    requires Ok(w) && Wired(bus) && !w.auto.active && Ticking(t, w, kin, power)
    ensures var w' := MotorOnTick(bus, t, w); Ticking(t, w', kin, power) && !w'.auto.active
  {
    HandlersKeepValid(w.motor, w.motor.cmd, t);
    var (m, s) := OnTick(w.motor, t);
    assert m.active ==> w.motor.active;
    assert s.Some? ==> s.value.active == m.active;
    hide RouteOk, Motor.Valid, Frame, OnTick, Publish, Wired;
    if s.Some? {
      StatusReaches(bus, s.value, w.(motor := m));
    }
  }

  lemma {:induction false} TickDeliveredReads(bus: Bus, hs: seq<Component>, t: Tick, w: World)
    requires Ok(w) && Wired(bus) && !w.auto.active
    ensures var w' := Deliver(bus, hs, MsgTick(t), w);
            Ticking(t, w', KinematicsC in hs, PowerC in hs) && !w'.auto.active
    decreases |hs|
  {
    hide Ok, Frame, Handle, Wired;
    if hs != [] {
      var init, last := hs[..|hs| - 1], hs[|hs| - 1];
      assert hs == init + [last];
      TickDeliveredReads(bus, init, t, w);
      hide Ticking;
      TickHandledReads(bus, last, t, Deliver(bus, init, MsgTick(t), w), KinematicsC in init, PowerC in init);
    }
  }

  /**
    In metres and seconds: a tick of the clock moves the vehicle by a hundredth of a second at a hundredth of a
    metre per second for every rpm of the motor, and takes the voltage of the supply; and if the motor is still
    active then, that is the speed reported, and the current is the supply's.
   */
  lemma {:induction false} TickMovesMetres(bus: Bus, w: World, lo: real, hi: real)
    requires Wired(bus) && Rest(w, lo, hi) && !w.auto.active
    ensures var w', rpm := Served(bus, Snap, w), Current(w.motor).rpm;
            && Metres(w'.kin.position) == Metres(w.kin.position) + rpm as real / 100.0 / 100.0
            && w'.power.voltage == w'.supply.0 == w.supply.0
            && (w'.motor.active ==> w'.kin.speed == rpm && w'.power.current == w.supply.1)
  {
    TickMoves(bus, w, lo, hi);
    SnapshotIsCurrent(w, lo, hi);
    CalledOnce(bus, PhysicsTick, KinematicsC);
    CalledOnce(bus, PhysicsTick, PowerC);
    var t := Snapshot(w.state);
    hide Ok, Wired, Deliver, HandlersOf, Publish, Rest, OnTick, Current;
    MetresMoved(w.kin.position, t.rpm);
    RestIsOk(w, lo, hi);
    PublishedByDelivery(bus, MsgTick(t), w);
    TickDeliveredReads(bus, HandlersOf(bus, PhysicsTick), t, Post(MsgTick(t), w));
  }

  lemma RestIsOk(w: World, lo: real, hi: real)
    requires Rest(w, lo, hi)
    ensures Ok(w)
  {
  }

  lemma MetresMoved(position: int, rpm: int)
    ensures Metres(position + rpm * TICK_US) == Metres(position) + rpm as real / 100.0 / 100.0
  {
  }
}
