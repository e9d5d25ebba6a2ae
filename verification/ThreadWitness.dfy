/** Runs that show what the services do not promise: a stale tick that acts, and requests published close together. */
module ThreadWitness {
  import opened Wrappers
  import opened Messages
  import opened Motor
  import opened Physics
  import opened Environment
  import opened Route
  import opened Mesh
  import opened MeshTraffic
  import opened MeshRoute
  import opened MeshMotion
  import opened Threads
  import opened ThreadOrder
  import opened ThreadSafety
  import opened ThreadCoherence
  import opened ThreadAlone
  import opened ThreadTicks

  // ---- building runs ---------------------------------------------------------------------------------

  lemma StepKeepsFine(bus: Bus, s: Sys, mv: Move, s': Sys, lo: real, hi: real)
    requires Wired(bus) && Fine(s, lo, hi) && Step(bus, s, mv, s') && Mild(mv, lo, hi)
    ensures Fine(s', lo, hi)
  {
    hide Step, Coherent, Wired, AllOrdered, Mild, GoodWorld;
    StepKeepsCoherent(bus, s, mv, s');
    StepIsPossible(bus, s, mv, s');
    StepKeepsSafe(bus, s, mv, s', lo, hi);
  }

  lemma StepIsPossible(bus: Bus, s: Sys, mv: Move, s': Sys)
    requires Step(bus, s, mv, s')
    ensures Can(s, mv)
  {
  }

  /** A run goes on with one more move. */
  lemma Extend(bus: Bus, states: seq<Sys>, moves: seq<Move>, mv: Move, s': Sys, lo: real, hi: real)
    requires Wired(bus) && Run(bus, states, moves) && Fine(states[|states| - 1], lo, hi)
    requires Step(bus, states[|states| - 1], mv, s') && Mild(mv, lo, hi)
    ensures Run(bus, states + [s'], moves + [mv]) && Fine(s', lo, hi)
  {
    hide Step, Fine, Wired, Mild;
    StepKeepsFine(bus, states[|states| - 1], mv, s', lo, hi);
    assert Run(bus, [states[|states| - 1], s'], [mv]);
    RunJoin(bus, states, moves, [states[|states| - 1], s'], [mv]);
  }

  // ---- a stale tick that acts ------------------------------------------------------------------------

  /** A sequence of one step that lasts one tick. */
  function OneTick(cmdId: uint32, speed: int16): Sequence { OneStep(cmdId, SubCmd(speed, TICK_US)) }

  /** One thread has read the tick, another is about to hand the motor a sequence. */
  function Overtaken(s: Sys, cmd: Sequence): Sys
    requires |s.threads| >= 2
  {
    Sys(Post(MsgSequence(cmd), s.w),
        s.threads[0 := Next(Call(MotorC, MsgSequence(cmd)), Nil)][1 := Next(Emit(MsgTick(Snapshot(s.w.state))), Nil)])
  }

  /** The clock reads the cache. */
  lemma ReadRun(bus: Bus, s: Sys, lo: real, hi: real) returns (states: seq<Sys>, moves: seq<Move>)
    requires Wired(bus) && Idle(s) && |s.threads| >= 2 && Rest(s.w, lo, hi)
    ensures Run(bus, states, moves) && states[0] == s && |moves| == 2
    ensures states[2] == With(s, 1, s.w, Next(Emit(MsgTick(Snapshot(s.w.state))), Nil)) && Fine(states[2], lo, hi)
  {
    var s1 := With(s, 1, s.w, Next(Snap, Nil));
    var s2 := With(s, 1, s.w, Next(Emit(MsgTick(Snapshot(s.w.state))), Nil));
    IdleIsFine(s, lo, hi);
    assert Step(bus, s, Submit(1, Snap), s1) by { SafeIsSane(s, lo, hi); hide Ok; }
    hide Fine, Wired, Rest, Step;
    assert Run(bus, [s], []);
    Extend(bus, [s], [], Submit(1, Snap), s1, lo, hi);
    ReadStep(bus, s, s1, s2, lo, hi);
    Extend(bus, [s, s1], [Submit(1, Snap)], Take(1), s2, lo, hi);
    states, moves := [s, s1, s2], [Submit(1, Snap), Take(1)];
  }

  /** Another thread gets a sequence to publish, and posts it. */
  lemma PostRun(bus: Bus, s: Sys, cmd: Sequence, lo: real, hi: real) returns (states: seq<Sys>, moves: seq<Move>)
    requires Wired(bus) && |s.threads| >= 2 && s.threads[0] == Nil && Fine(s, lo, hi)
    ensures Run(bus, states, moves) && states[0] == s && |moves| == 2
    ensures states[2] == With(s, 0, Post(MsgSequence(cmd), s.w), Next(Call(MotorC, MsgSequence(cmd)), Nil))
    ensures Fine(states[2], lo, hi)
  {
    var m := MsgSequence(cmd);
    var s1 := With(s, 0, s.w, Next(Emit(m), Nil));
    var s2 := With(s, 0, Post(m, s.w), Next(Call(MotorC, m), Nil));
    SoleHandler(bus, MotorSequence, MotorC);
    hide Fine, Wired, Step;
    assert Run(bus, [s], []);
    SubmitStep(bus, s, s1, m, lo, hi);
    Extend(bus, [s], [], Submit(0, Emit(m)), s1, lo, hi);
    PostStep(bus, s1, s2, m, lo, hi);
    Extend(bus, [s, s1], [Submit(0, Emit(m))], Take(0), s2, lo, hi);
    states, moves := [s, s1, s2], [Submit(0, Emit(m)), Take(0)];
  }

  lemma Overtake(bus: Bus, s: Sys, cmd: Sequence, lo: real, hi: real) returns (states: seq<Sys>, moves: seq<Move>)
    requires Wired(bus) && Idle(s) && |s.threads| >= 2 && Rest(s.w, lo, hi)
    ensures Run(bus, states, moves) && states[0] == s && |moves| == 4 && states[4] == Overtaken(s, cmd)
    ensures Fine(Overtaken(s, cmd), lo, hi)
  {
    hide Fine, Wired, Rest, Step;
    states, moves := ReadRun(bus, s, lo, hi);
    var more, mvs := PostRun(bus, states[2], cmd, lo, hi);
    assert more[2] == Overtaken(s, cmd);
    RunJoin(bus, states, moves, more, mvs);
    states, moves := states + more[1..], moves + mvs;
  }

  lemma IdleIsFine(s: Sys, lo: real, hi: real)
    requires Idle(s) && Rest(s.w, lo, hi)
    ensures Fine(s, lo, hi)
  {
    hide Ok, Temperate, Current;
  }

  lemma ReadStep(bus: Bus, s: Sys, s1: Sys, s2: Sys, lo: real, hi: real)
    requires Idle(s) && |s.threads| >= 2 && Fine(s1, lo, hi) && s1 == With(s, 1, s.w, Next(Snap, Nil))
    requires s2 == With(s, 1, s.w, Next(Emit(MsgTick(Snapshot(s.w.state))), Nil))
    ensures Step(bus, s1, Take(1), s2)
  {
    SafeIsSane(s1, lo, hi);
    hide Ok, Safe, Coherent;
  }

  lemma SubmitStep(bus: Bus, s2: Sys, s3: Sys, m: Msg, lo: real, hi: real)
    requires |s2.threads| >= 2 && s2.threads[0] == Nil && Fine(s2, lo, hi)
    requires Entry(Emit(m)) && s3 == With(s2, 0, s2.w, Next(Emit(m), Nil))
    ensures Step(bus, s2, Submit(0, Emit(m)), s3)
  {
    SafeIsSane(s2, lo, hi);
    hide Ok, Safe, Coherent;
  }

  lemma PostStep(bus: Bus, s3: Sys, s4: Sys, m: Msg, lo: real, hi: real)
    requires |s3.threads| >= 2 && m.MsgSequence? && s3.threads[0] == Next(Emit(m), Nil) && Fine(s3, lo, hi)
    requires HandlersOf(bus, MotorSequence) == [MotorC]
    requires s4 == With(s3, 0, Post(m, s3.w), Next(Call(MotorC, m), Nil))
    ensures Step(bus, s3, Take(0), s4)
  {
    SafeIsSane(s3, lo, hi);
    hide Ok, Safe, Coherent;
    assert Calls([MotorC], m, Nil) == Next(Call(MotorC, m), Nil) by {
      assert [MotorC][..0] == [];
    }
  }

  /** The thread hands the sequence to the motor and finishes. */
  lemma AcceptRun(bus: Bus, s: Sys, cmd: Sequence, lo: real, hi: real) returns (states: seq<Sys>, moves: seq<Move>)
    requires Wired(bus) && |s.threads| >= 2 && Fine(s, lo, hi) && OthersOutside(s, 0)
    requires s.threads[0] == Next(Call(MotorC, MsgSequence(cmd)), Nil)
    ensures Run(bus, states, moves) && states[0] == s && |moves| > 0
    ensures forall k | 0 <= k < |moves| :: moves[k] == Take(0)
    ensures states[1].w.motor == OnSequence(s.w.motor, cmd).0
    ensures var last := states[|states| - 1];
            && last == With(s, 0, last.w, Nil) && Fine(last, lo, hi)
            && last.w.motor == OnSequence(s.w.motor, cmd).0 && last.w.auto == s.w.auto
  {
    var m := MsgSequence(cmd);
    assert Ok(s.w);
    var n := HandleRuns(bus, MotorC, m, s.w, Nil);
    SequenceHandled(bus, cmd, s.w);
    var w' := Handle(bus, MotorC, m, s.w);
    hide Fine, Wired, Runs, Handle, Ok, OnSequence, OthersOutside;
    states, moves := RunsAreSteps(bus, n, s, 0, w', Nil, lo, hi);
    assert s.threads[0] != Nil == states[|states| - 1].threads[0];
    assert Step(bus, s, Take(0), states[1]);
    TakesSequence(bus, s, cmd, states[1]);
  }

  lemma TakesSequence(bus: Bus, s: Sys, cmd: Sequence, s': Sys)
    requires |s.threads| > 0 && s.threads[0] == Next(Call(MotorC, MsgSequence(cmd)), Nil) && Step(bus, s, Take(0), s')
    ensures s'.w.motor == OnSequence(s.w.motor, cmd).0
  {
    hide Ok, Enabled, OnSequence;
  }

  /** The thread that has read the tick publishes it to everybody. */
  lemma TickRun(bus: Bus, s: Sys, t: Tick, lo: real, hi: real) returns (states: seq<Sys>, moves: seq<Move>)
    requires Wired(bus) && |s.threads| >= 2 && Fine(s, lo, hi) && OthersOutside(s, 1) && !s.w.auto.active
    requires s.threads[1] == Next(Emit(MsgTick(t)), Nil)
    ensures Run(bus, states, moves) && states[0] == s && forall k | 0 <= k < |moves| :: moves[k] == Take(1)
    ensures var last := states[|states| - 1];
            && last == With(s, 1, last.w, Nil) && Fine(last, lo, hi)
            && Motor.Valid(s.w.motor) && last.w.motor == OnTick(s.w.motor, t).0
  {
    assert Ok(s.w);
    var n := PublishRuns(bus, MsgTick(t), s.w, Nil);
    TickPublished(bus, t, s.w);
    var w' := Publish(bus, MsgTick(t), s.w);
    hide Fine, Wired, Runs, Publish, OthersOutside;
    states, moves := RunsAreSteps(bus, n, s, 1, w', Nil, lo, hi);
  }

  lemma TickPublished(bus: Bus, t: Tick, w: World)
    requires Wired(bus) && Ok(w) && !w.auto.active
    ensures Publish(bus, MsgTick(t), w).motor == OnTick(w.motor, t).0
  {
    var hs := HandlersOf(bus, PhysicsTick);
    TickHandlers(bus);
    PublishedByDelivery(bus, MsgTick(t), w);
    hide Ok, Frame, Deliver, OnTick, Wired, HandlersOf, Publish;
    TickDelivered(bus, hs, t, Post(MsgTick(t), w));
  }

  lemma TickHandlers(bus: Bus)
    requires Wired(bus)
    ensures var hs := HandlersOf(bus, PhysicsTick);
            multiset(hs)[MotorC] == 1 && multiset(hs)[KinematicsC] == 1 && MotorC in hs
  {
    var hs := HandlersOf(bus, PhysicsTick);
    assert Once(hs, MotorC, PhysicsTick in Subscribes(MotorC));
    assert Once(hs, KinematicsC, PhysicsTick in Subscribes(KinematicsC));
  }

  /** The tick that ends a sequence of one tick, whatever it was read for. */
  lemma OneTickEnds(m: MotorState, cmdId: uint32, speed: int16, t: Tick)
    requires t.cmdId == cmdId && t.dt == TICK_US
    ensures var m' := OnSequence(m, OneTick(cmdId, speed)).0;
            m'.active && m'.cmd.cmdId == cmdId && Motor.Valid(m') && !OnTick(m', t).0.active
              && OnTick(m', t).0.cmd == m'.cmd
  {
    var cmd := OneTick(cmdId, speed);
    assert Limited(cmd).steps[0].duration == TICK_US;
  }

  /**
    At move `k` the motor accepts a sequence of one tick while a tick with its id is in flight. Nothing is
    submitted after that, so no further tick is read; and at the end everybody is idle and the motor has stopped.
   */
  predicate EndedByStaleTick(states: seq<Sys>, moves: seq<Move>, k: nat, tick: Tick, cmd: Sequence) {
    && k < |moves| < |states| && 2 <= |states[k].threads|
    && Accepted(states[k], moves[k]) == {cmd.cmdId} == {tick.cmdId} && InFlight(states[k].threads[1], tick)
    && states[k + 1].w.motor == OnSequence(states[k].w.motor, cmd).0 && states[k + 1].w.motor.active
    && (forall j | k <= j < |moves| :: moves[j].Take?)
    && var last := states[|states| - 1];
       Idle(last) && last.w.motor.cmd == states[k + 1].w.motor.cmd && !last.w.motor.active
  }

  /**
    The sequence that reuses the id of the motor's current one: a tick that was read before it was accepted ends
    it, for every speed and from every state of the services at rest without a route.
   */
  lemma StaleTickActs(bus: Bus, s: Sys, speed: int16, lo: real, hi: real) returns (states: seq<Sys>, moves: seq<Move>)
    requires Wired(bus) && Idle(s) && |s.threads| >= 2 && Rest(s.w, lo, hi) && !s.w.auto.active
    ensures Run(bus, states, moves) && states[0] == s
    ensures EndedByStaleTick(states, moves, 4, Snapshot(s.w.state), OneTick(s.w.motor.cmd.cmdId, speed))
  {
    var cmd, t := OneTick(s.w.motor.cmd.cmdId, speed), Snapshot(s.w.state);
    SnapshotIsCurrent(s.w, lo, hi);
    OneTickEnds(s.w.motor, s.w.motor.cmd.cmdId, speed, t);
    var s4 := Overtaken(s, cmd);
    AllOutside(s, cmd);
    hide Fine, Wired, Rest, Step, OnSequence, OnTick, Snapshot, OneTick, Current, Locks;
    states, moves := Overtake(bus, s, cmd, lo, hi);
    var accept, takes := AcceptRun(bus, s4, cmd, lo, hi);
    var s6 := accept[|accept| - 1];
    var ticks, more := TickRun(bus, s6, t, lo, hi);
    RunJoin(bus, states, moves, accept, takes);
    RunJoin(bus, states + accept[1..], moves + takes, ticks, more);
    states, moves := states + accept[1..] + ticks[1..], moves + takes + more;
  }

  lemma AllOutside(s: Sys, cmd: Sequence)
    requires Idle(s) && |s.threads| >= 2
    ensures var s4 := Overtaken(s, cmd);
            OthersOutside(s4, 0) && forall w :: OthersOutside(With(s4, 0, w, Nil), 1)
  {
  }

  /** The first use of the id 0, which the cache and the motor start with: the tick read before it ends it. */
  lemma FirstZeroIsEnded(bus: Bus, s: Sys, speed: int16, now: int, supply: (real, real))
    returns (states: seq<Sys>, moves: seq<Move>)
    requires Wired(bus) && Idle(s) && |s.threads| >= 2 && s.w == Fresh(now, supply)
    ensures Run(bus, states, moves) && states[0] == s
    ensures EndedByStaleTick(states, moves, 4, Tick(0, 0, TICK_US), OneTick(0, speed))
  {
    FreshRests(now, supply, 20.0, 20.0);
    states, moves := StaleTickActs(bus, s, speed, 20.0, 20.0);
  }

  lemma EndedLater(bus: Bus, states: seq<Sys>, moves: seq<Move>, more: seq<Sys>, mvs: seq<Move>, tick: Tick,
      cmd: Sequence)
    requires Run(bus, states, moves) && Run(bus, more, mvs) && EndedByStaleTick(more, mvs, 4, tick, cmd)
    ensures EndedByStaleTick(states + more[1..], moves + mvs, |moves| + 4, tick, cmd)
  {
    hide Step, Accepted, InFlight, OnSequence, Idle;
    var all, k := states + more[1..], |moves| + 4;
    assert all[k] == more[4] && all[k + 1] == more[5] && all[|all| - 1] == more[|more| - 1];
  }

  /** From the start, for every id, 999 of the controller's sequences among them: used once, then reused. */
  lemma ReusedIdIsEnded(bus: Bus, s: Sys, first: Sequence, speed: int16, now: int, supply: (real, real))
    returns (states: seq<Sys>, moves: seq<Move>, k: nat, tick: Tick)
    requires Wired(bus) && Idle(s) && |s.threads| >= 2 && s.w == Fresh(now, supply)
    ensures Run(bus, states, moves) && states[0] == s
    ensures 4 <= k <= |moves| && states[k - 4] == s.(w := Publish(bus, MsgSequence(first), s.w))
    ensures EndedByStaleTick(states, moves, k, tick, OneTick(first.cmdId, speed))
  {
    FreshRests(now, supply, 20.0, 20.0);
    states, moves := UndisturbedRunIsPublish(bus, Emit(MsgSequence(first)), s, 0, 20.0, 20.0);
    var s1 := s.(w := Publish(bus, MsgSequence(first), s.w));
    SequenceAccepted(bus, first, s.w, 20.0, 20.0);
    tick := Snapshot(s1.w.state);
    k := |moves| + 4;
    hide Wired, Rest, Step, Publish, Fresh, OneTick, Snapshot;
    var more, mvs := StaleTickActs(bus, s1, speed, 20.0, 20.0);
    RunJoin(bus, states, moves, more, mvs);
    EndedLater(bus, states, moves, more, mvs, tick, OneTick(first.cmdId, speed));
    hide EndedByStaleTick;
    states, moves := states + more[1..], moves + mvs;
  }
}
