/**
  The services on one bus. Publishing is synchronous: every handler runs, in the bus's order, before
  publish returns, and may publish in turn. The precondition of Publish is therefore what holds at every
  publish point, re-entrant ones included, and its decreases clause is the reason why dispatch ends.
 */
module Mesh {
  import opened Wrappers
  import opened Messages
  import opened Motor
  import opened Physics
  import opened Environment
  import opened Route

  /** Handlers per message, in the order in which the bus calls them. */
  datatype Bus = Bus(handlers: map<MsgId, seq<Component>>)

  function HandlersOf(bus: Bus, id: MsgId): seq<Component> {
    if id in bus.handlers then bus.handlers[id] else []
  }

  /** Every subscriber is called exactly once, nobody else is; the order is open. */
  predicate Wired(bus: Bus) {
    forall id, c :: Once(HandlersOf(bus, id), c, id in Subscribes(c))
  }

  predicate Once(hs: seq<Component>, c: Component, subscribed: bool) {
    multiset(hs)[c] == if subscribed then 1 else 0
  }

  datatype Sent = Sent(msg: Msg, at: int)

  /** `sent` is everything published so far; `supply` is the reading PowerService will take on a tick. */
  datatype World = World(
    motor: MotorState, state: StateCache, kin: KinState, power: PowerState, thermal: ThermalState,
    env: EnvState, auto: AutoState, sent: seq<Sent>, now: int, supply: (real, real))

  predicate Ok(w: World) {
    && Motor.Valid(w.motor)
    && RouteOk(w.auto)
    && (w.auto.env.Some? ==> w.auto.env.value < |w.env.cache|)
  }

  /** The services as constructed. */
  function Fresh(now: int, supply: (real, real)): World {
    World(Motor.INITIAL, StateCache(false, 0, 0, false), KinState(0, 0, 0, 0), PowerState(0, 12.6, 0.0),
          ThermalState(20.0, 20.0, 20.0), EnvState([], 0), ROUTELESS, [], now, supply)
  }

  lemma FreshOk(now: int, supply: (real, real))
    ensures Ok(Fresh(now, supply))
  {
    assert ROUTELESS.status.envIds[..0] == [];
  }

  predicate MsgOk(m: Msg, w: World) {
    m.MsgFound? ==> m.entry < |w.env.cache|
  }

  /** Strictly decreases from a message to every message published while it is handled. */
  function Rank(id: MsgId): nat {
    match id
    case PhysicsTick => 6
    case KinematicsRequest => 5
    case KinematicsData => 4
    case InternalEnvRequest => 3
    case InternalEnvData => 2
    case AutoDriveCommand => 2
    case MotorSequence => 1
    case PowerRequest => 1
    case ThermalRequest => 1
    case StateRequest => 1
    case EnvironmentData => 1
    case _ => 0
  }

  predicate SameRoute(a: AutoState, b: AutoState) {
    && a.cmd == b.cmd && a.idx == b.idx && a.active == b.active && a.lastPos == b.lastPos
    && a.from == b.from && a.seen == b.seen
    && a.status.node == b.status.node && a.status.complete == b.status.complete
    && a.status.numStats == b.status.numStats && a.status.stats == b.status.stats
  }

  /** Messages whose handling can reach AutonomousService. */
  predicate ReachesAuto(id: MsgId) {
    id in {PhysicsTick, KinematicsRequest, KinematicsData, InternalEnvRequest, InternalEnvData,
           AutoDriveCommand, PowerRequest, PowerData}
  }

  /** What handling `id` leaves alone. */
  predicate Frame(id: MsgId, w: World, w': World) {
    && w.sent <= w'.sent && w.now == w'.now && w.supply == w'.supply
    && |w.env.cache| <= |w'.env.cache|
    && (id != EnvironmentData ==> w'.env.cache == w.env.cache)
    && (!ReachesAuto(id) ==> w'.auto == w.auto)
    && (id in {InternalEnvRequest, InternalEnvData, PowerRequest, PowerData} ==> SameRoute(w.auto, w'.auto))
    && (id in {PowerRequest, PowerData} ==> w'.auto.env == w.auto.env)
    && (id != PhysicsTick && id != EnvironmentData ==> w'.thermal == w.thermal)
  }

  // ---- the bus -----------------------------------------------------------------------------------

  function Publish(bus: Bus, m: Msg, w: World): (w': World)
    requires Ok(w) && MsgOk(m, w)
    ensures Ok(w') && Frame(m.Id(), w, w')
    decreases Rank(m.Id()), 3, 0
  {
    Deliver(bus, HandlersOf(bus, m.Id()), m, w.(sent := w.sent + [Sent(m, w.now)]))
  }

  function Deliver(bus: Bus, hs: seq<Component>, m: Msg, w: World): (w': World)
    requires Ok(w) && MsgOk(m, w)
    ensures Ok(w') && Frame(m.Id(), w, w')
    decreases Rank(m.Id()), 2, |hs|
  {
    if hs == [] then w
    else Handle(bus, hs[|hs| - 1], m, Deliver(bus, hs[..|hs| - 1], m, w))
  }

  function Handle(bus: Bus, c: Component, m: Msg, w: World): (w': World)
    requires Ok(w) && MsgOk(m, w)
    ensures Ok(w') && Frame(m.Id(), w, w')
    decreases Rank(m.Id()), 1, 0
  {
    match (c, m)
    case (MotorC, MsgSequence(cmd)) => MotorOnSequence(bus, cmd, w)
    case (MotorC, MsgTick(t)) => MotorOnTick(bus, t, w)
    case (KinematicsC, MsgKinematicsRequest) => KinOnRequest(bus, w)
    case (PowerC, MsgPowerRequest) => PowerOnRequest(bus, w)
    case (StateC, MsgStateRequest) => StateOnRequest(bus, w)
    case (ThermalC, MsgThermalRequest) => ThermalOnRequest(bus, w)
    case (EnvironmentC, MsgRegion(e)) => EnvOnRegion(bus, e, w)
    case (EnvironmentC, MsgLookup(x, y)) => EnvOnLookup(bus, x, y, w)
    case (AutonomousC, MsgRoute(cmd)) => AutoOnRoute(bus, cmd, w)
    case (AutonomousC, MsgKinematics(k)) => AutoOnKinematics(bus, k, w)
    case (AutonomousC, MsgTick(_)) => AutoOnTick(bus, w)
    case (AutonomousC, MsgFound(entry)) => AutoOnFound(bus, entry, w)
    case _ => Quiet(c, m, w)
  }

  /** Handlers that publish nothing; UdpBridge forwards to its socket, nobody else is subscribed. */
  function Quiet(c: Component, m: Msg, w: World): (w': World)
    requires Ok(w)
    ensures Ok(w') && Frame(m.Id(), w, w') && w'.sent == w.sent && w'.env == w.env
  {
    match (c, m)
    case (KinematicsC, MsgTick(t)) => w.(kin := Integrate(w.kin, t))
    case (KinematicsC, MsgStatus(s)) => w.(kin := KinOnStatus(w.kin, s))
    case (PowerC, MsgTick(t)) => w.(power := PowerState(t.cmdId, w.supply.0, w.supply.1))
    case (PowerC, MsgStatus(s)) => w.(power := PowerOnStatus(w.power, s))
    case (StateC, MsgStatus(s)) => w.(state := CacheStatus(s))
    case (ThermalC, MsgTick(t)) => w.(thermal := Heat(w.thermal, t))
    case (ThermalC, MsgRegion(e)) => w.(thermal := w.thermal.(ambient := e.ambient))
    case (AutonomousC, MsgPower(p)) => w.(auto := w.auto.(energy := w.auto.energy + p.voltage * p.current * 0.01))
    case _ => w
  }

  /** The handlers that can publish. */
  predicate Publishing(c: Component, m: Msg) {
    match c
    case MotorC => m.MsgSequence? || m.MsgTick?
    case KinematicsC => m.MsgKinematicsRequest?
    case PowerC => m.MsgPowerRequest?
    case StateC => m.MsgStateRequest?
    case ThermalC => m.MsgThermalRequest?
    case EnvironmentC => m.MsgRegion? || m.MsgLookup?
    case AutonomousC => m.MsgRoute? || m.MsgKinematics? || m.MsgTick? || m.MsgFound?
    case _ => false
  }

  // ---- handlers that publish ---------------------------------------------------------------------

  function MotorOnSequence(bus: Bus, cmd: Sequence, w: World): (w': World)
    requires Ok(w)
    ensures Ok(w') && Frame(MotorSequence, w, w')
    decreases Rank(MotorSequence), 0, 0
  {
    var (m, s) := OnSequence(w.motor, cmd);
    Publish(bus, MsgStatus(s), w.(motor := m))
  }

  function MotorOnTick(bus: Bus, t: Tick, w: World): (w': World)
    requires Ok(w)
    ensures Ok(w') && Frame(PhysicsTick, w, w') && w'.auto == w.auto
    decreases Rank(PhysicsTick), 0, 0
  {
    HandlersKeepValid(w.motor, w.motor.cmd, t);
    var (m, s) := OnTick(w.motor, t);
    if s.Some? then Publish(bus, MsgStatus(s.value), w.(motor := m)) else w.(motor := m)
  }

  function KinOnRequest(bus: Bus, w: World): (w': World)
    requires Ok(w)
    ensures Ok(w') && Frame(KinematicsRequest, w, w')
    decreases Rank(KinematicsRequest), 0, 0
  {
    Publish(bus, MsgKinematics(Report(w.kin)), w)
  }

  function PowerOnRequest(bus: Bus, w: World): (w': World)
    requires Ok(w)
    ensures Ok(w') && Frame(PowerRequest, w, w')
    decreases Rank(PowerRequest), 0, 0
  {
    Publish(bus, MsgPower(Power(w.power.cmdId, w.power.voltage, w.power.current)), w)
  }

  function StateOnRequest(bus: Bus, w: World): (w': World)
    requires Ok(w)
    ensures Ok(w') && Frame(StateRequest, w, w')
    decreases Rank(StateRequest), 0, 0
  {
    Publish(bus, MsgState(w.state.executing), w)
  }

  function ThermalOnRequest(bus: Bus, w: World): (w': World)
    requires Ok(w)
    ensures Ok(w') && Frame(ThermalRequest, w, w')
    decreases Rank(ThermalRequest), 0, 0
  {
    Publish(bus, MsgThermal(w.thermal.motor, w.thermal.battery), w)
  }

  function EnvOnRegion(bus: Bus, e: Region, w: World): (w': World)
    requires Ok(w)
    ensures Ok(w') && Frame(EnvironmentData, w, w')
    decreases Rank(EnvironmentData), 0, 0
  {
    Publish(bus, MsgRegionAck(e.id), w.(env := w.env.(cache := Store(w.env.cache, e))))
  }

  function EnvOnLookup(bus: Bus, x: real, y: real, w: World): (w': World)
    requires Ok(w)
    ensures Ok(w') && Frame(InternalEnvRequest, w, w')
    decreases Rank(InternalEnvRequest), 0, 0
  {
    var hit := Lookup(w.env.cache, x, y);
    if hit.Some? then Publish(bus, MsgFound(hit.value), w)
    else if w.now - w.env.lastRequest > THROTTLE then
      var w1 := Publish(bus, MsgRegionRequest(x, y), w);
      w1.(env := w1.env.(lastRequest := w.now))
    else w
  }

  function AutoOnRoute(bus: Bus, cmd: RoutePlan, w: World): (w': World)
    requires Ok(w)
    ensures Ok(w') && Frame(AutoDriveCommand, w, w')
    decreases Rank(AutoDriveCommand), 0, 0
  {
    var w1 := w.(auto := Start(w.auto, cmd));
    if w1.auto.active then Publish(bus, MsgSequence(NodeSequence(w1.auto, w1.env.cache)), w1) else w1
  }

  function AutoOnFound(bus: Bus, entry: nat, w: World): (w': World)
    requires Ok(w) && entry < |w.env.cache|
    ensures Ok(w') && Frame(InternalEnvData, w, w')
    decreases Rank(InternalEnvData), 0, 0
  {
    var w1 := w.(auto := Enter(w.auto, entry, w.env.cache[entry].id));
    if w1.auto.active then Publish(bus, MsgSequence(NodeSequence(w1.auto, w1.env.cache)), w1) else w1
  }

  function AutoOnTick(bus: Bus, w: World): (w': World)
    requires Ok(w)
    ensures Ok(w') && Frame(PhysicsTick, w, w')
    decreases Rank(PhysicsTick), 0, 0
  {
    if w.auto.active then
      var w1 := Publish(bus, MsgKinematicsRequest, w);
      hide Ok;
      Publish(bus, MsgPowerRequest, w1)
    else w
  }

  /** position_m_ in metres. */
  function Metres(position: int): real { position as real / 100000000.0 }

  /** The environment asked for, if it has to be. */
  function AskEnvironment(bus: Bus, x: real, w: World): (w': World)
    requires Ok(w)
    ensures Ok(w') && Frame(InternalEnvRequest, w, w')
    decreases Rank(KinematicsData), 0, 0
  {
    if w.auto.cmd.tuning && OffMap(w.auto, w.env.cache, x) then Publish(bus, MsgLookup(x, 0.0), w) else w
  }

  function AutoOnKinematics(bus: Bus, k: Kinematics, w: World): (w': World)
    requires Ok(w)
    ensures Ok(w') && Frame(KinematicsData, w, w')
    decreases Rank(KinematicsData), 0, 3
  {
    var x := Metres(k.position);
    if !w.auto.active || w.auto.idx >= w.auto.cmd.numNodes then w.(auto := At(w.auto, x))
    else Sample(bus, x, AskEnvironment(bus, x, w))
  }

  /** The check against the current node, once the environment is known. */
  function Sample(bus: Bus, x: real, w: World): (w': World)
    requires Ok(w) && w.auto.active
    ensures Ok(w') && Frame(KinematicsData, w, w')
    decreases Rank(KinematicsData), 0, 2
  {
    if !Reached(w.auto.cmd.route[w.auto.idx].x, w.auto.lastPos, x) then w.(auto := Moved(w.auto, x))
    else
      var w1 := NodeReached(bus, w.(auto := ReachNode(w.auto, x)));
      w1.(auto := At(w1.auto, x))
  }

  /** The route's report and the stop, or the way to the next node. */
  function NodeReached(bus: Bus, w: World): (w': World)
    requires Ok(w)
    ensures Ok(w') && Frame(MotorSequence, w, w')
    decreases Rank(KinematicsData), 0, 1
  {
    if !w.auto.active then Publish(bus, MsgSequence(STOP), Publish(bus, MsgRouteStatus(w.auto.status), w))
    else Publish(bus, MsgSequence(NodeSequence(w.auto, w.env.cache)), w)
  }
}
