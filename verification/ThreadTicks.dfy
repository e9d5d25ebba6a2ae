/** A tick that was read from the cache before a preemption, delivered after it. */
module ThreadTicks {
  import opened Wrappers
  import opened Messages
  import opened Motor
  import opened Physics
  import opened Environment
  import opened Route
  import opened Mesh
  import opened Threads
  import opened ThreadSafety

  /** Ids in ticks and statuses that are still under way; a tick is one of the clock's. */
  predicate KnownMsg(m: Msg, ids: set<uint32>) {
    match m
    case MsgTick(t) => t.cmdId in ids && t.dt == TICK_US
    case MsgStatus(s) => s.cmdId in ids
    case _ => true
  }

  predicate KnownAct(a: Act, ids: set<uint32>) {
    match a
    case Emit(m) => KnownMsg(m, ids)
    case Call(_, m) => KnownMsg(m, ids)
    case _ => true
  }

  predicate AllKnown(t: Todo, ids: set<uint32>) {
    t.Next? ==> KnownAct(t.a, ids) && AllKnown(t.rest, ids)
  }

  predicate Known(s: Sys, ids: set<uint32>) {
    && s.w.motor.cmd.cmdId in ids && s.w.state.cmdId in ids
    && forall i | 0 <= i < |s.threads| :: AllKnown(s.threads[i], ids)
  }

  /** The id of the motor sequence that this action makes MotorService accept. */
  function AcceptedBy(a: Act): set<uint32> {
    match a
    case Call(MotorC, MsgSequence(cmd)) => {cmd.cmdId}
    case _ => {}
  }

  function Accepted(s: Sys, mv: Move): set<uint32> {
    if mv.Take? && mv.i < |s.threads| && s.threads[mv.i].Next? then AcceptedBy(s.threads[mv.i].a) else {}
  }

  /** Every id accepted in the first `k` moves, and the two the services start with. */
  function History(states: seq<Sys>, moves: seq<Move>, k: nat): set<uint32>
    requires k <= |moves| < |states|
  {
    if k == 0 then {states[0].w.motor.cmd.cmdId, states[0].w.state.cmdId}
    else History(states, moves, k - 1) + Accepted(states[k - 1], moves[k - 1])
  }

  lemma {:induction false} AllKnownGrows(t: Todo, ids: set<uint32>, more: set<uint32>)
    requires AllKnown(t, ids) && ids <= more
    ensures AllKnown(t, more)
  {
    if t.Next? {
      AllKnownGrows(t.rest, ids, more);
    }
  }

  lemma {:induction false} CallsKnown(hs: seq<Component>, m: Msg, rest: Todo, ids: set<uint32>)
    requires KnownMsg(m, ids) && AllKnown(rest, ids)
    ensures AllKnown(Calls(hs, m, rest), ids)
    decreases |hs|
  {
    if hs != [] {
      CallsKnown(hs[..|hs| - 1], m, Next(Call(hs[|hs| - 1], m), rest), ids);
    }
  }

  lemma DoKnown(bus: Bus, a: Act, rest: Todo, w: World, ids: set<uint32>)
    requires Ok(w) && Fits(a, w) && w.motor.cmd.cmdId in ids && w.state.cmdId in ids && AllKnown(Next(a, rest), ids)
    ensures var (w', t) := Do(bus, a, rest, w);
            var more := ids + AcceptedBy(a);
            w'.motor.cmd.cmdId in more && w'.state.cmdId in more && AllKnown(t, more)
  {
    AllKnownGrows(rest, ids, ids + AcceptedBy(a));
    if !a.Call? {
      assert ids + AcceptedBy(a) == ids;
    }
    match a
    case Emit(m) => CallsKnown(HandlersOf(bus, m.Id()), m, rest, ids);
    case Call(c, m) => BeginKnown(c, m, rest, w, ids);
    case Check(x) => CheckKnown(x, rest, w, ids);
    case _ => hide Ok;
  }

  lemma CheckKnown(x: real, rest: Todo, w: World, ids: set<uint32>)
    requires Ok(w) && w.auto.active && AllKnown(rest, ids)
    ensures AllKnown(CheckNode(x, rest, w).1, ids)
  {
    hide Ok, Reached, NodeSequence;
    assert AllKnown(Next(Emit(MsgSequence(STOP)), Next(Record(x), rest)), ids);
  }

  lemma BeginKnown(c: Component, m: Msg, rest: Todo, w: World, ids: set<uint32>)
    requires Ok(w) && MsgOk(m, w) && w.motor.cmd.cmdId in ids && w.state.cmdId in ids
    requires KnownMsg(m, ids) && AllKnown(rest, ids + AcceptedBy(Call(c, m)))
    ensures var (w', t) := Begin(c, m, rest, w);
            var more := ids + AcceptedBy(Call(c, m));
            w'.motor.cmd.cmdId in more && w'.state.cmdId in more && AllKnown(t, more)
  {
    var more := ids + AcceptedBy(Call(c, m));
    assert AllKnown(Leave(LockOf(c), rest), more);
    if c == AutonomousC || c == EnvironmentC {
      LongKnown(c, m, rest, w, more);
    } else {
      hide Ok, Heat, Integrate, PowerOnStatus, KinOnStatus;
    }
  }

  lemma LongKnown(c: Component, m: Msg, rest: Todo, w: World, ids: set<uint32>)
    requires Ok(w) && MsgOk(m, w) && (c == AutonomousC || c == EnvironmentC) && AllKnown(Leave(LockOf(c), rest), ids)
    ensures var (w', t) := Begin(c, m, rest, w); w'.motor == w.motor && w'.state == w.state && AllKnown(t, ids)
  {
    hide Ok, NodeSequence, Start, Enter, OffMap, Metres, Store, Lookup;
    var r := Leave(LockOf(c), rest);
    assert forall at :: AllKnown(Next(Stamp(at), r), ids);
    assert forall x :: AllKnown(Next(Check(x), r), ids);
    assert AllKnown(Next(Emit(MsgPowerRequest), r), ids);
  }

  lemma StepKnown(bus: Bus, s: Sys, mv: Move, s': Sys, ids: set<uint32>)
    requires Step(bus, s, mv, s') && Known(s, ids)
    ensures Known(s', ids + Accepted(s, mv))
  {
    if mv.Take? {
      var t := s.threads[mv.i];
      DoKnown(bus, t.a, t.rest, s.w, ids);
      forall j | 0 <= j < |s.threads| ensures AllKnown(s.threads[j], ids + AcceptedBy(t.a)) {
        AllKnownGrows(s.threads[j], ids, ids + AcceptedBy(t.a));
      }
      hide Do, AllKnown, Enabled, Sane;
    } else {
      assert ids + Accepted(s, mv) == ids;
      assert mv.Submit? ==> AllKnown(Next(mv.a, Nil), ids);
      assert mv.Speak? ==> AllKnown(Next(Say, s.threads[mv.i]), ids);
    }
  }

  lemma IdleKnown(s: Sys)
    requires Idle(s)
    ensures Known(s, {s.w.motor.cmd.cmdId, s.w.state.cmdId})
  {
  }

  lemma {:induction false} RunsKnow(bus: Bus, states: seq<Sys>, moves: seq<Move>, k: nat)
    requires Run(bus, states, moves) && Idle(states[0]) && k < |states|
    ensures Known(states[k], History(states, moves, k))
  {
    hide Known, Accepted, Can, Make, Sane;
    if k == 0 {
      IdleKnown(states[0]);
    } else {
      RunsKnow(bus, states, moves, k - 1);
      assert Step(bus, states[k - 1], moves[k - 1], states[k]);
      hide Step;
      StepKnown(bus, states[k - 1], moves[k - 1], states[k], History(states, moves, k - 1));
    }
  }

  /** The tick was read from the cache and has not yet reached everybody. */
  predicate InFlight(t: Todo, tick: Tick) {
    t.Next? && (t.a == Emit(MsgTick(tick)) || t.a == Call(MotorC, MsgTick(tick)) || InFlight(t.rest, tick))
  }

  lemma {:induction false} InFlightKnown(t: Todo, tick: Tick, ids: set<uint32>)
    requires InFlight(t, tick) && AllKnown(t, ids)
    ensures tick.cmdId in ids && tick.dt == TICK_US
  {
    if t.a != Emit(MsgTick(tick)) && t.a != Call(MotorC, MsgTick(tick)) {
      InFlightKnown(t.rest, tick, ids);
    }
  }

  /** A tick of positive length moves MotorService exactly when it is active and the ids are equal. */
  lemma TickActsExactly(m: MotorState, t: Tick)
    requires Motor.Valid(m) && t.dt > 0
    ensures OnTick(m, t) == (m, None) <==> !(m.active && t.cmdId == m.cmd.cmdId)
    ensures OnTick(m, t).0 == m <==> !(m.active && t.cmdId == m.cmd.cmdId)
  {
  }

  lemma StepKeepsCommand(bus: Bus, s: Sys, mv: Move, s': Sys)
    requires Step(bus, s, mv, s')
    ensures Accepted(s, mv) == {} ==> s'.w.motor.cmd == s.w.motor.cmd
    ensures Accepted(s, mv) != {} ==> Accepted(s, mv) == {s'.w.motor.cmd.cmdId}
  {
    if mv.Take? {
      DoKeepsCommand(bus, s.threads[mv.i].a, s.threads[mv.i].rest, s.w);
    }
    hide Do, Sane, Enabled, AcceptedBy;
  }

  /** Only the acceptance of a sequence changes the motor's command. */
  lemma DoKeepsCommand(bus: Bus, a: Act, rest: Todo, w: World)
    requires Ok(w) && Fits(a, w)
    ensures var w' := Do(bus, a, rest, w).0;
            && (AcceptedBy(a) == {} ==> w'.motor.cmd == w.motor.cmd)
            && (AcceptedBy(a) != {} ==> AcceptedBy(a) == {w'.motor.cmd.cmdId})
  {
    DoTouches(bus, a, rest, w);
    if a.Call? && a.c == MotorC {
      MotorKeepsCommand(bus, a.m, rest, w);
    }
    hide Do, Ok;
  }

  lemma MotorKeepsCommand(bus: Bus, m: Msg, rest: Todo, w: World)
    requires Ok(w) && MsgOk(m, w)
    ensures var w' := Do(bus, Call(MotorC, m), rest, w).0;
            w'.motor.cmd.cmdId == (if m.MsgSequence? then m.seq_.cmdId else w.motor.cmd.cmdId)
            && (!m.MsgSequence? ==> w'.motor.cmd == w.motor.cmd)
  {
    hide RouteOk;
  }

  /** A sequence stays the motor's until another one is accepted. */
  lemma {:induction false} StaysCurrent(bus: Bus, states: seq<Sys>, moves: seq<Move>, k: nat, k': nat, id: uint32)
    requires Run(bus, states, moves) && k < k' < |states| && Accepted(states[k], moves[k]) == {id}
    requires forall j | k < j < k' :: Accepted(states[j], moves[j]) == {}
    ensures states[k'].w.motor.cmd.cmdId == id
    decreases k'
  {
    hide Step, Accepted;
    assert Step(bus, states[k' - 1], moves[k' - 1], states[k']);
    StepKeepsCommand(bus, states[k' - 1], moves[k' - 1], states[k']);
    if k' - 1 == k {
      assert states[k'].w.motor.cmd.cmdId in {id};
    } else {
      StaysCurrent(bus, states, moves, k, k' - 1, id);
    }
  }

  lemma TickTaken(bus: Bus, s: Sys, i: nat, s': Sys, tick: Tick)
    requires Step(bus, s, Take(i), s') && s.threads[i].a == Call(MotorC, MsgTick(tick))
    ensures Motor.Valid(s.w.motor) && s'.w.motor == OnTick(s.w.motor, tick).0
  {
    hide Enabled, OnTick;
  }

  /**
    A sequence preempts. A tick that is in flight at that moment, and reaches the motor while that sequence is
    still the current one, changes the motor if and only if the motor is active then and the tick carries the id
    of the sequence. It does not carry it when the id is new; the id 0, which the cache and the motor start
    with, is never new.
   */
  lemma StaleTickActsExactly(bus: Bus, states: seq<Sys>, moves: seq<Move>, k: nat, id: uint32, i: nat, tick: Tick,
                             k': nat)
    requires Run(bus, states, moves) && Idle(states[0]) && k < k' < |moves|
    requires Accepted(states[k], moves[k]) == {id} && forall j | k < j < k' :: Accepted(states[j], moves[j]) == {}
    requires i < |states[k].threads| && InFlight(states[k].threads[i], tick)
    requires moves[k'] == Take(i) && i < |states[k'].threads| && states[k'].threads[i].Next?
    requires states[k'].threads[i].a == Call(MotorC, MsgTick(tick))
    ensures states[k'].w.motor.cmd.cmdId == id
    ensures states[k' + 1].w.motor != states[k'].w.motor <==> states[k'].w.motor.active && tick.cmdId == id
    ensures id !in History(states, moves, k) ==> states[k' + 1].w.motor == states[k'].w.motor
  {
    hide Step, Accepted, Known, OnTick, Motor.Valid, InFlight, Idle;
    RunsKnow(bus, states, moves, k);
    KnownThread(states[k], i, History(states, moves, k));
    InFlightKnown(states[k].threads[i], tick, History(states, moves, k));
    StaysCurrent(bus, states, moves, k, k', id);
    assert Step(bus, states[k'], moves[k'], states[k' + 1]);
    TickTaken(bus, states[k'], i, states[k' + 1], tick);
    TickActsExactly(states[k'].w.motor, tick);
  }

  lemma KnownThread(s: Sys, i: nat, ids: set<uint32>)
    requires Known(s, ids) && i < |s.threads|
    ensures AllKnown(s.threads[i], ids)
  {
  }
}
