/** How many motor commands one message can cause, when every subscriber is called once. */
module MeshBudget {
  import opened Wrappers
  import opened Messages
  import opened Motor
  import opened Physics
  import opened Environment
  import opened Route
  import opened Mesh
  import opened MeshTraffic

  /** Motor commands published while the message is handled. */
  function Budget(id: MsgId): nat {
    match id
    case PhysicsTick => 2
    case KinematicsRequest => 2
    case KinematicsData => 2
    case InternalEnvRequest => 1
    case InternalEnvData => 1
    case AutoDriveCommand => 1
    case _ => 0
  }

  /** The component through which they come about. */
  function Carrier(id: MsgId): Component {
    match id
    case KinematicsRequest => KinematicsC
    case InternalEnvRequest => EnvironmentC
    case _ => AutonomousC
  }

  function Commands(w: World): nat {
    Count(w.sent, MotorSequence)
  }

  predicate Within(w: World, w': World, n: nat) {
    Commands(w') <= Commands(w) + n
  }

  lemma {:induction false} PublishBudget(bus: Bus, m: Msg, w: World)
    requires Ok(w) && MsgOk(m, w) && Wired(bus)
    ensures Within(w, Publish(bus, m, w), Budget(m.Id()) + if m.MsgSequence? then 1 else 0)
    decreases Rank(m.Id()), 3, 0
  {
    hide Frame, RouteOk, Motor.Valid;
    var hs, carrier := HandlersOf(bus, m.Id()), Carrier(m.Id());
    assert Once(hs, carrier, m.Id() in Subscribes(carrier));
    CountSnoc(w.sent, Sent(m, w.now), MotorSequence);
    DeliverBudget(bus, hs, m, Post(m, w));
  }

  lemma {:induction false} DeliverBudget(bus: Bus, hs: seq<Component>, m: Msg, w: World)
    requires Ok(w) && MsgOk(m, w) && Wired(bus) && multiset(hs)[Carrier(m.Id())] <= 1
    ensures Within(w, Deliver(bus, hs, m, w), if Carrier(m.Id()) in hs then Budget(m.Id()) else 0)
    decreases Rank(m.Id()), 2, |hs|
  {
    hide Ok, Carrier, Budget, Commands;
    if hs != [] {
      var init, last := hs[..|hs| - 1], hs[|hs| - 1];
      assert hs == init + [last];
      DeliverBudget(bus, init, m, w);
      HandleBudget(bus, last, m, Deliver(bus, init, m, w));
    }
  }

  lemma {:induction false} HandleBudget(bus: Bus, c: Component, m: Msg, w: World)
    requires Ok(w) && MsgOk(m, w) && Wired(bus)
    ensures Within(w, Handle(bus, c, m, w), if c == Carrier(m.Id()) then Budget(m.Id()) else 0)
    decreases Rank(m.Id()), 1, 0
  {
    hide Frame, Wired, Ok, Quiet, Within, Traffic, Handle;
    if !Publishing(c, m) {
      QuietTraffic(bus, c, m, w);
      QuietBudget(c, m, w, if c == Carrier(m.Id()) then Budget(m.Id()) else 0);
    } else if c == AutonomousC {
      AutonomousBudget(bus, m, w);
    } else if c == MotorC || c == EnvironmentC {
      CommandBudget(bus, c, m, w);
    } else {
      RequestBudget(bus, c, m, w);
    }
  }

  lemma {:induction false} AutonomousBudget(bus: Bus, m: Msg, w: World)
    requires Ok(w) && MsgOk(m, w) && Wired(bus) && Publishing(AutonomousC, m)
    ensures Within(w, Handle(bus, AutonomousC, m, w), Budget(m.Id()))
    decreases Rank(m.Id()), 0, 4
  {
    hide Frame, Wired, Ok, Quiet, Within, AutoOnRoute, AutoOnKinematics, AutoOnTick, AutoOnFound;
    match m
    case MsgRoute(cmd) => RouteBudget(bus, cmd, w);
    case MsgKinematics(k) => KinematicsBudget(bus, k, w);
    case MsgTick(_) => TickBudget(bus, w);
    case MsgFound(entry) => FoundBudget(bus, entry, w);
    case _ =>
  }

  lemma {:induction false} CommandBudget(bus: Bus, c: Component, m: Msg, w: World)
    requires Ok(w) && MsgOk(m, w) && Wired(bus) && Publishing(c, m) && (c == MotorC || c == EnvironmentC)
    ensures Within(w, Handle(bus, c, m, w), if c == Carrier(m.Id()) then Budget(m.Id()) else 0)
    decreases Rank(m.Id()), 0, 4
  {
    hide Frame, Wired, Ok, Quiet, Within, MotorOnSequence, MotorOnTick, EnvOnRegion, EnvOnLookup;
    match m
    case MsgSequence(cmd) => MotorBudget(bus, cmd, Tick(0, 0, 0), w);
    case MsgTick(t) => MotorBudget(bus, w.motor.cmd, t, w);
    case MsgRegion(e) => RegionBudget(bus, e, w);
    case MsgLookup(x, y) => LookupBudget(bus, x, y, w);
    case _ =>
  }

  lemma {:induction false} RequestBudget(bus: Bus, c: Component, m: Msg, w: World)
    requires Ok(w) && Wired(bus) && Publishing(c, m) && c in {KinematicsC, PowerC, StateC, ThermalC}
    ensures Within(w, Handle(bus, c, m, w), if c == Carrier(m.Id()) then Budget(m.Id()) else 0)
    decreases Rank(m.Id()), 0, 4
  {
    hide Frame, Wired, Ok;
    match c
    case KinematicsC => PublishBudget(bus, MsgKinematics(Report(w.kin)), w);
    case PowerC => PublishBudget(bus, MsgPower(Power(w.power.cmdId, w.power.voltage, w.power.current)), w);
    case StateC => PublishBudget(bus, MsgState(w.state.executing), w);
    case ThermalC => PublishBudget(bus, MsgThermal(w.thermal.motor, w.thermal.battery), w);
    case _ =>
  }

  lemma QuietBudget(c: Component, m: Msg, w: World, n: nat)
    requires Ok(w)
    ensures Within(w, Quiet(c, m, w), n)
  {
  }

  lemma {:induction false} MotorBudget(bus: Bus, cmd: Sequence, t: Tick, w: World)
    requires Ok(w) && Wired(bus)
    ensures Within(w, MotorOnSequence(bus, cmd, w), 0) && Within(w, MotorOnTick(bus, t, w), 0)
    decreases Rank(MotorSequence), 0, 0
  {
    hide Frame, Wired, RouteOk, OnSequence, OnTick;
    HandlersKeepValid(w.motor, cmd, t);
    var (m1, s1) := OnSequence(w.motor, cmd);
    PublishBudget(bus, MsgStatus(s1), w.(motor := m1));
    var (m2, s2) := OnTick(w.motor, t);
    if s2.Some? {
      PublishBudget(bus, MsgStatus(s2.value), w.(motor := m2));
    }
  }

  lemma {:induction false} RegionBudget(bus: Bus, e: Region, w: World)
    requires Ok(w) && Wired(bus)
    ensures Within(w, EnvOnRegion(bus, e, w), 0)
    decreases Rank(EnvironmentData), 0, 0
  {
    hide Frame, Wired, RouteOk;
    PublishBudget(bus, MsgRegionAck(e.id), w.(env := w.env.(cache := Store(w.env.cache, e))));
  }

  lemma {:induction false} LookupBudget(bus: Bus, x: real, y: real, w: World)
    requires Ok(w) && Wired(bus)
    ensures Within(w, EnvOnLookup(bus, x, y, w), 1)
    decreases Rank(InternalEnvRequest), 0, 0
  {
    hide Frame, Wired, RouteOk, Motor.Valid, Covers, Publish;
    var hit := Lookup(w.env.cache, x, y);
    if hit.Some? {
      PublishBudget(bus, MsgFound(hit.value), w);
    } else if w.now - w.env.lastRequest > THROTTLE {
      PublishBudget(bus, MsgRegionRequest(x, y), w);
    }
  }

  lemma {:induction false} TickBudget(bus: Bus, w: World)
    requires Ok(w) && Wired(bus)
    ensures Within(w, AutoOnTick(bus, w), 2)
    decreases Rank(PhysicsTick), 0, 0
  {
    hide Wired, Ok;
    if w.auto.active {
      PublishBudget(bus, MsgKinematicsRequest, w);
      PublishBudget(bus, MsgPowerRequest, Publish(bus, MsgKinematicsRequest, w));
    }
  }

  lemma {:induction false} RouteBudget(bus: Bus, cmd: RoutePlan, w: World)
    requires Ok(w) && Wired(bus)
    ensures Within(w, AutoOnRoute(bus, cmd, w), 1)
    decreases Rank(AutoDriveCommand), 0, 0
  {
    hide Frame, Wired, NodeSequence;
    var w1 := w.(auto := Start(w.auto, cmd));
    if w1.auto.active {
      PublishBudget(bus, MsgSequence(NodeSequence(w1.auto, w1.env.cache)), w1);
    }
  }

  lemma {:induction false} FoundBudget(bus: Bus, entry: nat, w: World)
    requires Ok(w) && entry < |w.env.cache| && Wired(bus)
    ensures Within(w, AutoOnFound(bus, entry, w), 1)
    decreases Rank(InternalEnvData), 0, 0
  {
    hide Frame, Wired, NodeSequence;
    var w1 := w.(auto := Enter(w.auto, entry, w.env.cache[entry].id));
    if w1.auto.active {
      PublishBudget(bus, MsgSequence(NodeSequence(w1.auto, w1.env.cache)), w1);
    }
  }

  /** One command for the new environment, one for the next node or the stop. */
  lemma {:induction false} KinematicsBudget(bus: Bus, k: Kinematics, w: World)
    requires Ok(w) && Wired(bus)
    ensures Within(w, AutoOnKinematics(bus, k, w), 2)
    decreases Rank(KinematicsData), 0, 3
  {
    hide Wired, RouteOk, Motor.Valid, NodeSequence, Reached;
    var x := Metres(k.position);
    if w.auto.active && w.auto.idx < w.auto.cmd.numNodes {
      var w1 := AskEnvironment(bus, x, w);
      if w.auto.cmd.tuning && OffMap(w.auto, w.env.cache, x) {
        PublishBudget(bus, MsgLookup(x, 0.0), w);
      }
      SampleBudget(bus, x, w1);
    }
  }

  lemma {:induction false} SampleBudget(bus: Bus, x: real, w: World)
    requires Ok(w) && w.auto.active && Wired(bus)
    ensures Within(w, Sample(bus, x, w), 1)
    decreases Rank(KinematicsData), 0, 2
  {
    hide Frame, Wired, NodeSequence;
    if Reached(w.auto.cmd.route[w.auto.idx].x, w.auto.lastPos, x) {
      NodeBudget(bus, w.(auto := ReachNode(w.auto, x)));
    }
  }

  lemma {:induction false} NodeBudget(bus: Bus, w: World)
    requires Ok(w) && Wired(bus)
    ensures Within(w, NodeReached(bus, w), 1)
    decreases Rank(KinematicsData), 0, 1
  {
    hide Wired, NodeSequence, Frame;
    if w.auto.active {
      PublishBudget(bus, MsgSequence(NodeSequence(w.auto, w.env.cache)), w);
    } else {
      PublishBudget(bus, MsgRouteStatus(w.auto.status), w);
      PublishBudget(bus, MsgSequence(STOP), Publish(bus, MsgRouteStatus(w.auto.status), w));
    }
  }

  /** The clock's tick causes at most two motor commands: one for a new region, one for a new node or the stop. */
  lemma TickCausesAtMostTwoCommands(bus: Bus, t: Tick, w: World)
    requires Ok(w) && Wired(bus)
    ensures Count(Publish(bus, MsgTick(t), w).sent, MotorSequence) <= Count(w.sent, MotorSequence) + 2
  {
    PublishBudget(bus, MsgTick(t), w);
  }
}
