/** What is published while a message is handled: over every handler order, for every state. */
module MeshTraffic {
  import opened Wrappers
  import opened Messages
  import opened Motor
  import opened Physics
  import opened Environment
  import opened Route
  import opened Mesh

  function Count(s: seq<Sent>, id: MsgId): nat {
    if s == [] then 0 else Count(s[..|s| - 1], id) + if s[|s| - 1].msg.Id() == id then 1 else 0
  }

  lemma CountSnoc(s: seq<Sent>, e: Sent, id: MsgId)
    ensures Count(s + [e], id) == Count(s, id) + if e.msg.Id() == id then 1 else 0
  {
    assert (s + [e])[..|s|] == s;
  }

  /** What can be published, directly or not, while a message is handled. */
  predicate Causes(id: MsgId, caused: MsgId) {
    match id
    case PhysicsTick => caused in {KinematicsRequest, PowerRequest, PowerData} || FromKinematics(caused)
      || caused == KinematicsData
    case KinematicsRequest => FromKinematics(caused) || caused == KinematicsData
    case KinematicsData => FromKinematics(caused)
    case InternalEnvRequest => caused in {InternalEnvData, EnvironmentRequest, MotorSequence, MotorStatus}
    case InternalEnvData => caused in {MotorSequence, MotorStatus}
    case AutoDriveCommand => caused in {MotorSequence, MotorStatus}
    case MotorSequence => caused == MotorStatus
    case PowerRequest => caused == PowerData
    case ThermalRequest => caused == ThermalData
    case StateRequest => caused == StateData
    case EnvironmentData => caused == EnvironmentAck
    case _ => false
  }

  predicate FromKinematics(caused: MsgId) {
    caused in {InternalEnvRequest, InternalEnvData, EnvironmentRequest, MotorSequence, MotorStatus, AutoDriveStatus}
  }

  lemma CausesIsAnOrder(a: MsgId, b: MsgId, c: MsgId)
    requires Causes(a, b)
    ensures Rank(b) < Rank(a)
    ensures Causes(b, c) ==> Causes(a, c)
  {
  }

  /** Everything new is a consequence of `id`. */
  predicate Caused(id: MsgId, w: World, w': World) {
    |w.sent| <= |w'.sent| && forall i | |w.sent| <= i < |w'.sent| :: Causes(id, w'.sent[i].msg.Id())
  }

  /** A report says that the route is complete, and is followed at once by the stop sequence. */
  predicate Paired(s: seq<Sent>) {
    forall i | 0 <= i < |s| && s[i].msg.MsgRouteStatus? ::
      s[i].msg.report.complete && i + 1 < |s| && s[i + 1].msg == MsgSequence(STOP)
  }

  /** External requests are more than 500 ms apart, and the service knows the time of the last one. */
  predicate Throttled(w: World) {
    && w.env.lastRequest <= w.now
    && (forall i | 0 <= i < |w.sent| && w.sent[i].msg.MsgRegionRequest? :: w.sent[i].at <= w.env.lastRequest)
    && (forall i, j | 0 <= i < j < |w.sent| && w.sent[i].msg.MsgRegionRequest? && w.sent[j].msg.MsgRegionRequest? ::
          w.sent[j].at - w.sent[i].at > THROTTLE)
  }

  /** The route ended, other than by a new command. */
  function Ended(w: World, w': World): nat {
    if w.auto.active && !w'.auto.active then 1 else 0
  }

  /** Reports published are routes ended; nothing but a new command makes a route active or replaces it. */
  predicate Reports(id: MsgId, w: World, w': World) {
    && Count(w'.sent, AutoDriveStatus) == Count(w.sent, AutoDriveStatus)
       + (if id == AutoDriveCommand then 0 else Ended(w, w'))
    && (id != AutoDriveCommand ==> (w'.auto.active ==> w.auto.active) && w'.auto.cmd == w.auto.cmd)
  }

  predicate SameActivity(a: AutoState, b: AutoState) {
    a.active == b.active && a.cmd == b.cmd
  }

  predicate Keeps(w: World, w': World) {
    && (Paired(w.sent) ==> Paired(w'.sent))
    && (Throttled(w) ==> Throttled(w'))
  }

  predicate Traffic(id: MsgId, w: World, w': World) {
    Caused(id, w, w') && Reports(id, w, w') && Keeps(w, w')
  }

  function Post(m: Msg, w: World): World {
    w.(sent := w.sent + [Sent(m, w.now)])
  }

  lemma {:induction false} PublishedByDelivery(bus: Bus, m: Msg, w: World)
    requires Ok(w) && MsgOk(m, w)
    ensures Ok(Post(m, w)) && MsgOk(m, Post(m, w))
    ensures Publish(bus, m, w) == Deliver(bus, HandlersOf(bus, m.Id()), m, Post(m, w))
  {
    assert Ok(Post(m, w));
    hide Ok, Frame, Deliver, HandlersOf;
  }

  lemma Then(id: MsgId, w: World, w1: World, w2: World)
    requires Traffic(id, w, w1) && Traffic(id, w1, w2) && w.sent <= w1.sent <= w2.sent
    ensures Traffic(id, w, w2)
  {
    hide Paired, Throttled, Causes, Count;
    forall i | |w.sent| <= i < |w2.sent| ensures Causes(id, w2.sent[i].msg.Id()) {
      if i < |w1.sent| {
        assert w2.sent[i] == w1.sent[i];
      }
    }
  }

  /** The parts of the state that Traffic is about. */
  predicate SameTraffic(w: World, w': World) {
    w'.sent == w.sent && w'.env.lastRequest == w.env.lastRequest && w'.now == w.now
  }

  lemma Nothing(id: MsgId, w: World, w': World)
    requires SameTraffic(w, w')
    requires id == AutoDriveCommand || SameActivity(w.auto, w'.auto)
    ensures Traffic(id, w, w')
  {
    hide Count, Causes;
  }

  lemma PostKeeps(w: World, w1: World, m: Msg)
    requires SameTraffic(w, w1) && !m.MsgRouteStatus? && !m.MsgRegionRequest?
    ensures Keeps(w, Post(m, w1))
  {
    var p := Post(m, w1);
    assert forall i | 0 <= i < |w.sent| :: p.sent[i] == w.sent[i];
  }

  lemma PostCaused(id: MsgId, w: World, w1: World, m: Msg, w': World)
    requires Caused(m.Id(), Post(m, w1), w') && Causes(id, m.Id()) && w1.sent == w.sent
    requires Post(m, w1).sent <= w'.sent
    ensures Caused(id, w, w')
  {
    var p := Post(m, w1);
    assert w'.sent[|w.sent|] == p.sent[|w.sent|];
    forall i | |w.sent| <= i < |w'.sent| ensures Causes(id, w'.sent[i].msg.Id()) {
      CausesIsAnOrder(id, m.Id(), w'.sent[i].msg.Id());
    }
    hide Causes;
  }

  /** Publishing `m` as part of handling `id`. */
  lemma Within(id: MsgId, w: World, w1: World, m: Msg, w': World)
    requires Traffic(m.Id(), Post(m, w1), w') && Causes(id, m.Id()) && !m.MsgRouteStatus? && !m.MsgRegionRequest?
    requires m.Id() != AutoDriveCommand && SameTraffic(w, w1)
    requires if id == AutoDriveCommand then w'.auto == w1.auto else SameActivity(w.auto, w1.auto)
    requires Post(m, w1).sent <= w'.sent
    ensures Traffic(id, w, w')
  {
    hide Caused, Causes, Throttled, Paired;
    PostCaused(id, w, w1, m, w');
    PostKeeps(w, w1, m);
    CountSnoc(w.sent, Sent(m, w.now), AutoDriveStatus);
  }

  lemma {:induction false} PublishTraffic(bus: Bus, m: Msg, w: World)
    requires Ok(w) && MsgOk(m, w)
    ensures Traffic(m.Id(), Post(m, w), Publish(bus, m, w))
    ensures Post(m, w).sent <= Publish(bus, m, w).sent
    decreases Rank(m.Id()), 3, 0
  {
    DeliverTraffic(bus, HandlersOf(bus, m.Id()), m, Post(m, w));
  }

  lemma {:induction false} DeliverTraffic(bus: Bus, hs: seq<Component>, m: Msg, w: World)
    requires Ok(w) && MsgOk(m, w)
    ensures Traffic(m.Id(), w, Deliver(bus, hs, m, w))
    decreases Rank(m.Id()), 2, |hs|
  {
    if hs == [] {
      Nothing(m.Id(), w, w);
    } else {
      hide Traffic, Ok;
      var w1 := Deliver(bus, hs[..|hs| - 1], m, w);
      DeliverTraffic(bus, hs[..|hs| - 1], m, w);
      HandleTraffic(bus, hs[|hs| - 1], m, w1);
      Then(m.Id(), w, w1, Deliver(bus, hs, m, w));
    }
  }

  lemma {:induction false} NestedTraffic(bus: Bus, id: MsgId, w: World, w1: World, m: Msg)
    requires Ok(w1) && MsgOk(m, w1) && Causes(id, m.Id())
    requires !m.MsgRouteStatus? && !m.MsgRegionRequest? && m.Id() != AutoDriveCommand
    requires SameTraffic(w, w1)
    requires if id == AutoDriveCommand then !ReachesAuto(m.Id()) else SameActivity(w.auto, w1.auto)
    ensures Traffic(id, w, Publish(bus, m, w1))
    decreases Rank(m.Id()), 4, 0
  {
    PublishTraffic(bus, m, w1);
    Within(id, w, w1, m, Publish(bus, m, w1));
  }

  lemma {:induction false} HandleTraffic(bus: Bus, c: Component, m: Msg, w: World)
    requires Ok(w) && MsgOk(m, w)
    ensures Traffic(m.Id(), w, Handle(bus, c, m, w))
    decreases Rank(m.Id()), 1, 0
  {
    hide Traffic, Frame, Ok, MotorOnSequence, MotorOnTick, KinOnRequest, PowerOnRequest, StateOnRequest,
      ThermalOnRequest;
    hide EnvOnRegion, EnvOnLookup, AutoOnRoute, AutoOnKinematics, AutoOnTick, AutoOnFound;
    match (c, m)
    case (MotorC, MsgSequence(cmd)) => SequenceTraffic(bus, cmd, w);
    case (MotorC, MsgTick(t)) => MotorTickTraffic(bus, t, w);
    case (KinematicsC, MsgKinematicsRequest) => KinRequestTraffic(bus, w);
    case (PowerC, MsgPowerRequest) => PowerRequestTraffic(bus, w);
    case (StateC, MsgStateRequest) => StateRequestTraffic(bus, w);
    case (ThermalC, MsgThermalRequest) => ThermalRequestTraffic(bus, w);
    case (EnvironmentC, MsgRegion(e)) => RegionTraffic(bus, e, w);
    case (EnvironmentC, MsgLookup(x, y)) => LookupTraffic(bus, x, y, w);
    case (AutonomousC, MsgRoute(cmd)) => RouteTraffic(bus, cmd, w);
    case (AutonomousC, MsgKinematics(k)) => KinematicsTraffic(bus, k, w);
    case (AutonomousC, MsgTick(_)) => TickTraffic(bus, w);
    case (AutonomousC, MsgFound(entry)) => FoundTraffic(bus, entry, w);
    case _ => QuietTraffic(bus, c, m, w);
  }

  lemma {:induction false} SequenceTraffic(bus: Bus, cmd: Sequence, w: World)
    requires Ok(w)
    ensures Traffic(MotorSequence, w, MotorOnSequence(bus, cmd, w))
    decreases Rank(MotorSequence), 0, 0
  {
    hide Traffic, Frame, OnSequence, RouteOk;
    HandlersKeepValid(w.motor, cmd, Tick(0, 0, 0));
    var (s, st) := OnSequence(w.motor, cmd);
    NestedTraffic(bus, MotorSequence, w, w.(motor := s), MsgStatus(st));
  }

  lemma {:induction false} MotorTickTraffic(bus: Bus, t: Tick, w: World)
    requires Ok(w)
    ensures Traffic(PhysicsTick, w, MotorOnTick(bus, t, w))
    decreases Rank(PhysicsTick), 0, 0
  {
    hide Traffic, Frame, OnTick, RouteOk;
    HandlersKeepValid(w.motor, w.motor.cmd, t);
    var (s, st) := OnTick(w.motor, t);
    if st.Some? {
      NestedTraffic(bus, PhysicsTick, w, w.(motor := s), MsgStatus(st.value));
    } else {
      Nothing(PhysicsTick, w, w.(motor := s));
    }
  }

  lemma {:induction false} KinRequestTraffic(bus: Bus, w: World)
    requires Ok(w)
    ensures Traffic(KinematicsRequest, w, KinOnRequest(bus, w))
    decreases Rank(KinematicsRequest), 0, 0
  {
    hide Traffic, Frame, Ok;
    NestedTraffic(bus, KinematicsRequest, w, w, MsgKinematics(Report(w.kin)));
  }

  lemma {:induction false} PowerRequestTraffic(bus: Bus, w: World)
    requires Ok(w)
    ensures Traffic(PowerRequest, w, PowerOnRequest(bus, w))
    decreases Rank(PowerRequest), 0, 0
  {
    hide Traffic, Frame, Ok;
    NestedTraffic(bus, PowerRequest, w, w, MsgPower(Power(w.power.cmdId, w.power.voltage, w.power.current)));
  }

  lemma {:induction false} StateRequestTraffic(bus: Bus, w: World)
    requires Ok(w)
    ensures Traffic(StateRequest, w, StateOnRequest(bus, w))
    decreases Rank(StateRequest), 0, 0
  {
    hide Traffic, Frame, Ok;
    NestedTraffic(bus, StateRequest, w, w, MsgState(w.state.executing));
  }

  lemma {:induction false} ThermalRequestTraffic(bus: Bus, w: World)
    requires Ok(w)
    ensures Traffic(ThermalRequest, w, ThermalOnRequest(bus, w))
    decreases Rank(ThermalRequest), 0, 0
  {
    hide Traffic, Frame, Ok;
    NestedTraffic(bus, ThermalRequest, w, w, MsgThermal(w.thermal.motor, w.thermal.battery));
  }

  lemma {:induction false} RegionTraffic(bus: Bus, e: Region, w: World)
    requires Ok(w)
    ensures Traffic(EnvironmentData, w, EnvOnRegion(bus, e, w))
    decreases Rank(EnvironmentData), 0, 0
  {
    hide Traffic, Frame, RouteOk, Motor.Valid;
    NestedTraffic(bus, EnvironmentData, w, w.(env := w.env.(cache := Store(w.env.cache, e))), MsgRegionAck(e.id));
  }

  lemma {:induction false} RouteTraffic(bus: Bus, cmd: RoutePlan, w: World)
    requires Ok(w)
    ensures Traffic(AutoDriveCommand, w, AutoOnRoute(bus, cmd, w))
    decreases Rank(AutoDriveCommand), 0, 0
  {
    hide Traffic, Frame;
    var w1 := w.(auto := Start(w.auto, cmd));
    if w1.auto.active {
      NestedTraffic(bus, AutoDriveCommand, w, w1, MsgSequence(NodeSequence(w1.auto, w1.env.cache)));
    } else {
      Nothing(AutoDriveCommand, w, w1);
    }
  }

  lemma {:induction false} FoundTraffic(bus: Bus, entry: nat, w: World)
    requires Ok(w) && entry < |w.env.cache|
    ensures Traffic(InternalEnvData, w, AutoOnFound(bus, entry, w))
    decreases Rank(InternalEnvData), 0, 0
  {
    hide Traffic, Frame;
    var w1 := w.(auto := Enter(w.auto, entry, w.env.cache[entry].id));
    if w1.auto.active {
      NestedTraffic(bus, InternalEnvData, w, w1, MsgSequence(NodeSequence(w1.auto, w1.env.cache)));
    } else {
      Nothing(InternalEnvData, w, w1);
    }
  }

  lemma QuietTraffic(bus: Bus, c: Component, m: Msg, w: World)
    requires Ok(w) && MsgOk(m, w) && !Publishing(c, m)
    ensures Handle(bus, c, m, w) == Quiet(c, m, w)
    ensures Traffic(m.Id(), w, Quiet(c, m, w))
  {
    hide Traffic, Frame, Ok, Integrate, KinOnStatus, Heat;
    Nothing(m.Id(), w, Quiet(c, m, w));
  }

  /** Nobody on the bus reacts to what goes outside. */
  lemma {:induction false} Silent(bus: Bus, hs: seq<Component>, m: Msg, w: World)
    requires Ok(w) && (m.MsgRouteStatus? || m.MsgRegionRequest?)
    ensures Deliver(bus, hs, m, w) == w
    decreases |hs|
  {
    hide Frame, Ok;
    if hs != [] {
      Silent(bus, hs[..|hs| - 1], m, w);
      SilentHandler(bus, hs[|hs| - 1], m, w);
    }
  }

  lemma SilentHandler(bus: Bus, c: Component, m: Msg, w: World)
    requires Ok(w) && (m.MsgRouteStatus? || m.MsgRegionRequest?)
    ensures Handle(bus, c, m, w) == w
  {
    hide Frame, Ok;
  }

  /**
    A covering entry is announced and nothing is asked outside; or nothing is announced and at most one request
    leaves.
   */
  lemma {:induction false} LookupTraffic(bus: Bus, x: real, y: real, w: World)
    requires Ok(w)
    ensures Traffic(InternalEnvRequest, w, EnvOnLookup(bus, x, y, w))
    decreases Rank(InternalEnvRequest), 0, 0
  {
    hide Traffic, Frame, RouteOk, Motor.Valid, Publish;
    var hit := Lookup(w.env.cache, x, y);
    if hit.Some? {
      NestedTraffic(bus, InternalEnvRequest, w, w, MsgFound(hit.value));
    } else if w.now - w.env.lastRequest > THROTTLE {
      RequestTraffic(bus, x, y, w);
    } else {
      Nothing(InternalEnvRequest, w, w);
    }
  }

  /** What a miss does when the last request is long enough ago. */
  function Requested(x: real, y: real, w: World): World {
    var p := Post(MsgRegionRequest(x, y), w);
    p.(env := p.env.(lastRequest := w.now))
  }

  lemma Requests(bus: Bus, x: real, y: real, w: World)
    requires Ok(w) && w.now - w.env.lastRequest > THROTTLE && Lookup(w.env.cache, x, y).None?
    ensures EnvOnLookup(bus, x, y, w) == Requested(x, y, w)
  {
    var m := MsgRegionRequest(x, y);
    assert Ok(Post(m, w));
    hide Frame, Ok, Lookup, Deliver, HandlersOf;
    Silent(bus, HandlersOf(bus, EnvironmentRequest), m, Post(m, w));
    assert Publish(bus, m, w) == Post(m, w);
    hide Publish;
  }

  lemma RequestTraffic(bus: Bus, x: real, y: real, w: World)
    requires Ok(w) && w.now - w.env.lastRequest > THROTTLE && Lookup(w.env.cache, x, y).None?
    ensures EnvOnLookup(bus, x, y, w) == Requested(x, y, w)
    ensures Traffic(InternalEnvRequest, w, EnvOnLookup(bus, x, y, w))
  {
    hide *;
    Requests(bus, x, y, w);
    RequestedTraffic(x, y, w);
  }

  lemma RequestedTraffic(x: real, y: real, w: World)
    requires w.now - w.env.lastRequest > THROTTLE
    ensures Traffic(InternalEnvRequest, w, Requested(x, y, w))
  {
    hide Keeps;
    CountSnoc(w.sent, Sent(MsgRegionRequest(x, y), w.now), AutoDriveStatus);
    RequestKeepsTrace(x, y, w);
  }

  lemma RequestKeepsTrace(x: real, y: real, w: World)
    requires w.now - w.env.lastRequest > THROTTLE
    ensures Keeps(w, Requested(x, y, w))
  {
    var p := Requested(x, y, w);
    assert forall i | 0 <= i < |w.sent| :: p.sent[i] == w.sent[i];
  }

  lemma {:induction false} TickTraffic(bus: Bus, w: World)
    requires Ok(w)
    ensures Traffic(PhysicsTick, w, AutoOnTick(bus, w))
    decreases Rank(PhysicsTick), 0, 0
  {
    if w.auto.active {
      var w1 := Publish(bus, MsgKinematicsRequest, w);
      NestedTraffic(bus, PhysicsTick, w, w, MsgKinematicsRequest);
      NestedTraffic(bus, PhysicsTick, w1, w1, MsgPowerRequest);
      Then(PhysicsTick, w, w1, Publish(bus, MsgPowerRequest, w1));
    } else {
      Nothing(PhysicsTick, w, w);
    }
  }

  lemma {:induction false} KinematicsTraffic(bus: Bus, k: Kinematics, w: World)
    requires Ok(w)
    ensures Traffic(KinematicsData, w, AutoOnKinematics(bus, k, w))
    decreases Rank(KinematicsData), 0, 3
  {
    var x := Metres(k.position);
    if !w.auto.active || w.auto.idx >= w.auto.cmd.numNodes {
      Nothing(KinematicsData, w, w.(auto := At(w.auto, x)));
    } else {
      var w1 := AskEnvironment(bus, x, w);
      if w.auto.cmd.tuning && OffMap(w.auto, w.env.cache, x) {
        NestedTraffic(bus, KinematicsData, w, w, MsgLookup(x, 0.0));
      } else {
        Nothing(KinematicsData, w, w1);
      }
      SampleTraffic(bus, x, w1);
      Then(KinematicsData, w, w1, Sample(bus, x, w1));
    }
  }

  lemma {:induction false} SampleTraffic(bus: Bus, x: real, w: World)
    requires Ok(w) && w.auto.active
    ensures Traffic(KinematicsData, w, Sample(bus, x, w))
    decreases Rank(KinematicsData), 0, 2
  {
    if !Reached(w.auto.cmd.route[w.auto.idx].x, w.auto.lastPos, x) {
      Nothing(KinematicsData, w, w.(auto := Moved(w.auto, x)));
    } else {
      var w1 := w.(auto := ReachNode(w.auto, x));
      var w2 := NodeReached(bus, w1);
      if w1.auto.active {
        NestedTraffic(bus, KinematicsData, w, w1, MsgSequence(NodeSequence(w1.auto, w1.env.cache)));
      } else {
        CompletionTraffic(bus, w, w1);
      }
      Nothing(KinematicsData, w2, w2.(auto := At(w2.auto, x)));
      Then(KinematicsData, w, w2, w2.(auto := At(w2.auto, x)));
    }
  }

  /** The completion of a route: one report, and the stop sequence right behind it. */
  lemma ReportIsSilent(bus: Bus, w: World)
    requires Ok(w) && !w.auto.active
    ensures var p := Post(MsgRouteStatus(w.auto.status), w);
            Ok(p) && NodeReached(bus, w) == Publish(bus, MsgSequence(STOP), p)
  {
    var p := Post(MsgRouteStatus(w.auto.status), w);
    assert Ok(p);
    hide Ok, Frame, Deliver;
    Silent(bus, HandlersOf(bus, AutoDriveStatus), MsgRouteStatus(w.auto.status), p);
    assert Publish(bus, MsgRouteStatus(w.auto.status), w) == p;
  }

  lemma {:induction false} CompletionTraffic(bus: Bus, w: World, w1: World)
    requires Ok(w1) && w.auto.active && !w1.auto.active && w1 == w.(auto := w1.auto) && w1.auto.cmd == w.auto.cmd
    requires w1.auto.status.complete
    ensures Traffic(KinematicsData, w, NodeReached(bus, w1))
    decreases Rank(KinematicsData), 0, 1
  {
    var p := Post(MsgRouteStatus(w1.auto.status), w1);
    assert Ok(p);
    var w' := Publish(bus, MsgSequence(STOP), p);
    ReportIsSilent(bus, w1);
    hide Ok, Frame, NodeReached, Publish;
    PublishTraffic(bus, MsgSequence(STOP), p);
    Completed(w, w1, w');
  }

  /** `w'` follows from the report and the stop sequence by traffic of lower rank. */
  lemma Completed(w: World, w1: World, w': World)
    requires w1 == w.(auto := w1.auto) && w.auto.active && !w1.auto.active && w1.auto.cmd == w.auto.cmd
    requires w1.auto.status.complete
    requires var q := Post(MsgSequence(STOP), Post(MsgRouteStatus(w1.auto.status), w1));
             Traffic(MotorSequence, q, w') && q.sent <= w'.sent
    ensures Traffic(KinematicsData, w, w')
  {
    hide Keeps, Caused;
    var report, p := MsgRouteStatus(w1.auto.status), Post(MsgRouteStatus(w1.auto.status), w1);
    CountSnoc(w.sent, Sent(report, w.now), AutoDriveStatus);
    CountSnoc(p.sent, Sent(MsgSequence(STOP), w.now), AutoDriveStatus);
    ReportKeepsTrace(w, w1);
    CompletedCaused(w, w1, w');
    assert Keeps(w, w') by {
      KeepsThen(w, Post(MsgSequence(STOP), p), w');
    }
  }

  lemma KeepsThen(w: World, q: World, w': World)
    requires Keeps(w, q) && Keeps(q, w')
    ensures Keeps(w, w')
  {
    hide Paired, Throttled;
  }

  lemma CompletedCaused(w: World, w1: World, w': World)
    requires w1.sent == w.sent && w1.now == w.now
    requires var q := Post(MsgSequence(STOP), Post(MsgRouteStatus(w1.auto.status), w1));
             Caused(MotorSequence, q, w') && q.sent <= w'.sent
    ensures Caused(KinematicsData, w, w')
  {
    var q := Post(MsgSequence(STOP), Post(MsgRouteStatus(w1.auto.status), w1));
    assert w'.sent[|w.sent|] == q.sent[|w.sent|] && w'.sent[|w.sent| + 1] == q.sent[|w.sent| + 1];
  }

  lemma ReportKeepsTrace(w: World, w1: World)
    requires w1 == w.(auto := w1.auto) && w1.auto.status.complete
    ensures Keeps(w, Post(MsgSequence(STOP), Post(MsgRouteStatus(w1.auto.status), w1)))
  {
    var q := Post(MsgSequence(STOP), Post(MsgRouteStatus(w1.auto.status), w1));
    assert forall i | 0 <= i < |w.sent| :: q.sent[i] == w.sent[i];
  }
}
