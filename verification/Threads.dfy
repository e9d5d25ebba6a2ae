/**
  The services entered by any number of threads. A thread is the list of what it still has to do; a lock is
  held by the thread that still has to release it. One step is one critical section or one publish, so the
  steps of a dispatch interleave with those of every other thread.
 */
module Threads {
  import opened Wrappers
  import opened Messages
  import opened Motor
  import opened Physics
  import opened Environment
  import opened Route
  import opened Mesh

  datatype Lock = AutoL | EnvL | MotorL | StateL | KinL | PowerL | ThermalL | LogL | PeerL

  datatype Act =
    | Emit(m: Msg)                  // bus_.publish
    | Call(c: Component, m: Msg)    // a handler, up to its first publish
    | Unlock(l: Lock)               // the end of a lock_guard
    | Stamp(at: int)                // last_request_time_ = now
    | Check(x: real)                // the node check, after the environment is known
    | Record(x: real)               // last_pos_m_ = position
    | Snap                          // the clock reads the cached motor state
    | Say                           // logger_.info: a push under the log mutex

  datatype Todo = Nil | Next(a: Act, rest: Todo)

  datatype Sys = Sys(w: World, threads: seq<Todo>)

  // ---- locks -------------------------------------------------------------------------------------

  function LockOf(c: Component): Lock {
    match c
    case AutonomousC => AutoL
    case EnvironmentC => EnvL
    case MotorC => MotorL
    case StateC => StateL
    case KinematicsC => KinL
    case PowerC => PowerL
    case ThermalC => ThermalL
    case LogC => LogL
    case BridgeC => PeerL
  }

  function Level(l: Lock): nat {
    match l
    case AutoL => 0
    case EnvL => 1
    case MotorL => 2
    case PeerL => 4
    case LogL => 5
    case _ => 3
  }

  predicate Recursive(l: Lock) { l == AutoL || l == EnvL }

  /** What a thread holds. */
  function Locks(t: Todo): set<Lock> {
    match t
    case Nil => {}
    case Next(a, rest) => if a.Unlock? then Locks(rest) + {a.l} else Locks(rest)
  }

  /** The lock an action takes. */
  function Wants(a: Act): Option<Lock> {
    match a
    case Call(c, _) => Some(LockOf(c))
    case Snap => Some(StateL)
    case Say => Some(LogL)
    case _ => None
  }

  predicate Free(s: Sys, i: nat, l: Lock) {
    forall j | 0 <= j < |s.threads| && j != i :: l !in Locks(s.threads[j])
  }

  /** The next action of thread `i` can be taken. */
  predicate Enabled(s: Sys, i: nat)
    requires i < |s.threads|
  {
    var t := s.threads[i];
    t.Next? && (Wants(t.a).Some? ==>
      var l := Wants(t.a).value;
      Free(s, i, l) && (l in Locks(t.rest) ==> Recursive(l)))
  }

  // ---- actions -----------------------------------------------------------------------------------

  function Calls(hs: seq<Component>, m: Msg, rest: Todo): Todo {
    if hs == [] then rest else Calls(hs[..|hs| - 1], m, Next(Call(hs[|hs| - 1], m), rest))
  }

  /** Holds where the action is taken. */
  predicate Fits(a: Act, w: World) {
    match a
    case Emit(m) => MsgOk(m, w)
    case Call(_, m) => MsgOk(m, w)
    case Check(_) => w.auto.active
    case _ => true
  }

  function Do(bus: Bus, a: Act, rest: Todo, w: World): (World, Todo)
    requires Ok(w) && Fits(a, w)
  {
    match a
    case Emit(m) => (w.(sent := w.sent + [Sent(m, w.now)]), Calls(HandlersOf(bus, m.Id()), m, rest))
    case Call(c, m) => Begin(c, m, rest, w)
    case Unlock(_) => (w, rest)
    case Stamp(at) => (w.(env := w.env.(lastRequest := at)), rest)
    case Check(x) => CheckNode(x, rest, w)
    case Record(x) => (w.(auto := At(w.auto, x)), rest)
    case Snap => (w, Next(Emit(MsgTick(Snapshot(w.state))), rest))
    case Say => (w, Leave(LogL, rest))
  }

  function Leave(l: Lock, rest: Todo): Todo { Next(Unlock(l), rest) }

  /** The start of a handler, under its lock. KinematicsRequest and its like release the lock before they publish. */
  function Begin(c: Component, m: Msg, rest: Todo, w: World): (World, Todo)
    requires Ok(w) && MsgOk(m, w)
  {
    match (c, m)
    case (MotorC, MsgSequence(cmd)) =>
      var (s, st) := OnSequence(w.motor, cmd);
      (w.(motor := s), Next(Emit(MsgStatus(st)), Leave(MotorL, rest)))
    case (MotorC, MsgTick(t)) =>
      var (s, st) := OnTick(w.motor, t);
      (w.(motor := s), if st.Some? then Next(Emit(MsgStatus(st.value)), Leave(MotorL, rest)) else Leave(MotorL, rest))
    case (KinematicsC, MsgKinematicsRequest) =>
      (w, Next(Emit(MsgKinematics(Report(w.kin))), rest))
    case (PowerC, MsgPowerRequest) =>
      (w, Next(Emit(MsgPower(Power(w.power.cmdId, w.power.voltage, w.power.current))), rest))
    case (StateC, MsgStateRequest) => (w, Next(Emit(MsgState(w.state.executing)), rest))
    case (ThermalC, MsgThermalRequest) => (w, Next(Emit(MsgThermal(w.thermal.motor, w.thermal.battery)), rest))
    case (EnvironmentC, MsgRegion(e)) =>
      (w.(env := w.env.(cache := Store(w.env.cache, e))), Next(Emit(MsgRegionAck(e.id)), Leave(EnvL, rest)))
    case (EnvironmentC, MsgLookup(x, y)) =>
      var hit := Lookup(w.env.cache, x, y);
      (w, if hit.Some? then Next(Emit(MsgFound(hit.value)), Leave(EnvL, rest))
          else if w.now - w.env.lastRequest > THROTTLE then
            Next(Emit(MsgRegionRequest(x, y)), Next(Stamp(w.now), Leave(EnvL, rest)))
          else Leave(EnvL, rest))
    case (AutonomousC, MsgRoute(cmd)) => Drive(w.(auto := Start(w.auto, cmd)), rest)
    case (AutonomousC, MsgFound(entry)) => Drive(w.(auto := Enter(w.auto, entry, w.env.cache[entry].id)), rest)
    case (AutonomousC, MsgTick(_)) =>
      (w, if w.auto.active then Next(Emit(MsgKinematicsRequest), Next(Emit(MsgPowerRequest), Leave(AutoL, rest)))
          else Leave(AutoL, rest))
    case (AutonomousC, MsgKinematics(k)) => OnKinematics(Metres(k.position), rest, w)
    case _ => (Quiet(c, m, w), Leave(LockOf(c), rest))
  }

  /** The motor sequence of the current node, if there is one. */
  function Drive(w: World, rest: Todo): (World, Todo)
    requires Ok(w)
  {
    (w, if w.auto.active then Next(Emit(MsgSequence(NodeSequence(w.auto, w.env.cache))), Leave(AutoL, rest))
        else Leave(AutoL, rest))
  }

  function OnKinematics(x: real, rest: Todo, w: World): (World, Todo)
    requires Ok(w)
  {
    if !w.auto.active || w.auto.idx >= w.auto.cmd.numNodes then (w.(auto := At(w.auto, x)), Leave(AutoL, rest))
    else if w.auto.cmd.tuning && OffMap(w.auto, w.env.cache, x) then
      (w, Next(Emit(MsgLookup(x, 0.0)), Next(Check(x), Leave(AutoL, rest))))
    else (w, Next(Check(x), Leave(AutoL, rest)))
  }

  function CheckNode(x: real, rest: Todo, w: World): (World, Todo)
    requires Ok(w) && w.auto.active
  {
    if !Reached(w.auto.cmd.route[w.auto.idx].x, w.auto.lastPos, x) then (w.(auto := Moved(w.auto, x)), rest)
    else
      var w1 := w.(auto := ReachNode(w.auto, x));
      (w1,
       if w1.auto.active then Next(Emit(MsgSequence(NodeSequence(w1.auto, w1.env.cache))), Next(Record(x), rest))
       else Next(Emit(MsgRouteStatus(w1.auto.status)), Next(Emit(MsgSequence(STOP)), Next(Record(x), rest))))
  }

  lemma DoOk(bus: Bus, a: Act, rest: Todo, w: World)
    requires Ok(w) && Fits(a, w)
    ensures Ok(Do(bus, a, rest, w).0)
  {
    if a.Call? {
      BeginOk(a.c, a.m, rest, w);
    }
  }

  lemma BeginOk(c: Component, m: Msg, rest: Todo, w: World)
    requires Ok(w) && MsgOk(m, w)
    ensures Ok(Begin(c, m, rest, w).0)
  {
    hide Ok, Begin, Publishing, Frame;
    if c == AutonomousC {
      AutonomousOk(m, rest, w);
    } else if c == EnvironmentC {
      RegionOk(m, rest, w);
    } else if c == MotorC {
      MotorOk(m, rest, w);
    } else {
      RequestOk(c, m, rest, w);
    }
  }

  lemma RequestOk(c: Component, m: Msg, rest: Todo, w: World)
    requires Ok(w) && MsgOk(m, w) && c !in {AutonomousC, EnvironmentC, MotorC}
    ensures Ok(Begin(c, m, rest, w).0)
  {
    hide Ok, Frame;
  }

  lemma MotorOk(m: Msg, rest: Todo, w: World)
    requires Ok(w) && MsgOk(m, w)
    ensures Ok(Begin(MotorC, m, rest, w).0)
  {
    hide RouteOk, Motor.Valid, Frame, OnSequence, OnTick;
    HandlersKeepValid(w.motor, if m.MsgSequence? then m.seq_ else w.motor.cmd,
                      if m.MsgTick? then m.tick else Tick(0, 0, 0));
  }

  lemma AutonomousOk(m: Msg, rest: Todo, w: World)
    requires Ok(w) && MsgOk(m, w)
    ensures Ok(Begin(AutonomousC, m, rest, w).0)
  {
    hide RouteOk, Motor.Valid, Frame, NodeSequence;
    if m.MsgRoute? {
      StartOk(w.auto, m.route);
    } else if m.MsgKinematics? {
      AtOk(w.auto, Metres(m.kin.position));
    }
  }

  lemma RegionOk(m: Msg, rest: Todo, w: World)
    requires Ok(w) && MsgOk(m, w)
    ensures Ok(Begin(EnvironmentC, m, rest, w).0)
  {
    hide RouteOk, Motor.Valid, Frame;
  }

  lemma StartOk(a: AutoState, cmd: RoutePlan)
    ensures RouteOk(Start(a, cmd))
  {
  }

  lemma AtOk(a: AutoState, x: real)
    requires RouteOk(a)
    ensures RouteOk(At(a, x))
  {
  }

  // ---- runs --------------------------------------------------------------------------------------

  /**
    A thread takes its next action, or an idle one gets something to do; meanwhile time passes and the supply
    varies. Between any two actions, whatever locks it holds, a busy thread may decide to log.
   */
  datatype Move = Take(i: nat) | Submit(i: nat, a: Act) | Speak(i: nat) | Clock(d: nat) | Supply(reading: (real, real))

  /** What a thread can start with: a tick of the clock, a log record, or what the bridge may inject. */
  predicate Entry(a: Act) {
    a.Snap? || (a.Emit? && a.m.Id() in {Log, StateRequest, MotorSequence, KinematicsRequest, PowerRequest,
                                        ThermalRequest, AutoDriveCommand, EnvironmentData})
  }

  predicate Sane(s: Sys) {
    Ok(s.w) && forall i | 0 <= i < |s.threads| && s.threads[i].Next? :: Fits(s.threads[i].a, s.w)
  }

  predicate Can(s: Sys, mv: Move) {
    match mv
    case Take(i) => i < |s.threads| && Enabled(s, i)
    case Submit(i, a) => i < |s.threads| && s.threads[i] == Nil && Entry(a)
    case Speak(i) => i < |s.threads| && s.threads[i].Next? && LogL !in Locks(s.threads[i])
    case _ => true
  }

  function Make(bus: Bus, s: Sys, mv: Move): Sys
    requires Sane(s) && Can(s, mv)
  {
    match mv
    case Take(i) => Taken(bus, s, i)
    case Submit(i, a) => s.(threads := s.threads[i := Next(a, Nil)])
    case Speak(i) => s.(threads := s.threads[i := Next(Say, s.threads[i])])
    case Clock(d) => s.(w := s.w.(now := s.w.now + d))
    case Supply(reading) => s.(w := s.w.(supply := reading))
  }

  function Taken(bus: Bus, s: Sys, i: nat): Sys
    requires Ok(s.w) && i < |s.threads| && s.threads[i].Next? && Fits(s.threads[i].a, s.w)
  {
    var (w, t) := Do(bus, s.threads[i].a, s.threads[i].rest, s.w);
    Sys(w, s.threads[i := t])
  }

  predicate Step(bus: Bus, s: Sys, mv: Move, s': Sys) {
    Sane(s) && Can(s, mv) && s' == Make(bus, s, mv)
  }

  predicate Run(bus: Bus, states: seq<Sys>, moves: seq<Move>) {
    && |states| == |moves| + 1
    && forall k | 0 <= k < |moves| :: Step(bus, states[k], moves[k], states[k + 1])
  }

  predicate Idle(s: Sys) {
    forall i | 0 <= i < |s.threads| :: s.threads[i] == Nil
  }
}
