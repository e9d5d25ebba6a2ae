/** How far a motor sequence moves the vehicle: three services, any handler order, whole ticks, no active route. */
module MeshMotion {
  import opened Wrappers
  import opened Messages
  import opened Motor
  import opened Physics
  import opened Route
  import opened Mesh
  import opened Threads
  import opened ThreadSafety
  import opened ThreadAlone
  import opened MeshRoute

  // ---- one tick ------------------------------------------------------------------------------------

  /** Everything that drives the position, apart from the cached status. */
  predicate SameDrive(w: World, w': World) {
    w'.motor == w.motor && w'.kin.position == w.kin.position && w'.auto == w.auto
  }

  lemma {:induction false} StatusKeepsDrive(bus: Bus, hs: seq<Component>, s: Status, w: World)
    requires Ok(w)
    ensures SameDrive(w, Deliver(bus, hs, MsgStatus(s), w))
    decreases |hs|
  {
    hide Ok, Frame;
    if hs != [] {
      StatusKeepsDrive(bus, hs[..|hs| - 1], s, w);
      StatusHandled(bus, hs[|hs| - 1], s, Deliver(bus, hs[..|hs| - 1], MsgStatus(s), w));
    }
  }

  lemma {:induction false} StatusHandled(bus: Bus, c: Component, s: Status, w: World)
    requires Ok(w)
    ensures SameDrive(w, Handle(bus, c, MsgStatus(s), w))
  {
    hide Ok, Frame;
  }

  /** A tick's effect on the drive when `moved` says whether kinematics was called, `stepped` whether the motor was. */
  predicate Ticked(t: Tick, w: World, w': World, stepped: bool, moved: bool)
    requires Motor.Valid(w.motor)
  {
    && w'.motor == (if stepped then OnTick(w.motor, t).0 else w.motor)
    && w'.kin.position == w.kin.position + (if moved then t.rpm * t.dt else 0)
    && w'.auto == w.auto
  }

  lemma {:induction false} TickHandled(bus: Bus, c: Component, t: Tick, w: World)
    requires Ok(w) && !w.auto.active
    ensures Ticked(t, w, Handle(bus, c, MsgTick(t), w), c == MotorC, c == KinematicsC)
  {
    if c == MotorC {
      MotorTicked(bus, t, w);
    }
    hide Ok, Frame, MotorOnTick, OnTick, Heat;
  }

  lemma {:induction false} MotorTicked(bus: Bus, t: Tick, w: World)
    requires Ok(w)
    ensures Ticked(t, w, MotorOnTick(bus, t, w), true, false)
  {
    hide Frame, RouteOk, OnTick, Deliver;
    HandlersKeepValid(w.motor, w.motor.cmd, t);
    var (m, s) := OnTick(w.motor, t);
    if s.Some? {
      var w1 := w.(motor := m);
      StatusKeepsDrive(bus, HandlersOf(bus, MotorStatus), s.value,
        w1.(sent := w1.sent + [Sent(MsgStatus(s.value), w1.now)]));
    }
  }

  lemma {:induction false} TickDelivered(bus: Bus, hs: seq<Component>, t: Tick, w: World)
    requires Ok(w) && !w.auto.active && multiset(hs)[MotorC] <= 1 && multiset(hs)[KinematicsC] <= 1
    ensures Ticked(t, w, Deliver(bus, hs, MsgTick(t), w), MotorC in hs, KinematicsC in hs)
    decreases |hs|
  {
    hide Frame, RouteOk, OnTick, Motor.Valid;
    if hs != [] {
      var init, last := hs[..|hs| - 1], hs[|hs| - 1];
      assert hs == init + [last];
      TickDelivered(bus, init, t, w);
      TickHandled(bus, last, t, Deliver(bus, init, MsgTick(t), w));
    }
  }

  /** The clock's tick, on services at rest: it carries the current speed, and moves by that speed. */
  lemma {:induction false} TickMoves(bus: Bus, w: World, lo: real, hi: real)
    requires Wired(bus) && Rest(w, lo, hi) && !w.auto.active
    ensures var t := Tick(w.motor.cmd.cmdId, Current(w.motor).rpm, TICK_US);
            var w' := Served(bus, Snap, w);
            && w'.motor == OnTick(w.motor, t).0
            && w'.kin.position == w.kin.position + Current(w.motor).rpm * TICK_US
            && !w'.auto.active && Rest(w', lo, hi)
  {
    var states, moves := UndisturbedRunIsPublish(bus, Snap, Sys(w, [Nil]), 0, lo, hi);
    var t := Snapshot(w.state);
    var hs := HandlersOf(bus, PhysicsTick);
    assert Once(hs, MotorC, PhysicsTick in Subscribes(MotorC));
    assert Once(hs, KinematicsC, PhysicsTick in Subscribes(KinematicsC));
    var w1 := w.(sent := w.sent + [Sent(MsgTick(t), w.now)]);
    assert Ok(w1);
    hide Ok, Frame, Rest, Deliver, OnTick;
    TickDelivered(bus, hs, t, w1);
    assert t == Tick(w.motor.cmd.cmdId, Current(w.motor).rpm, TICK_US) by {
      SnapshotIsCurrent(w, lo, hi);
    }
  }

  lemma SnapshotIsCurrent(w: World, lo: real, hi: real)
    requires Rest(w, lo, hi)
    ensures Snapshot(w.state) == Tick(w.motor.cmd.cmdId, Current(w.motor).rpm, TICK_US)
  {
    hide RouteOk, Temperate;
  }

  /** Accepting a sequence moves nothing. */
  lemma {:induction false} SequenceAccepted(bus: Bus, cmd: Sequence, w: World, lo: real, hi: real)
    requires Wired(bus) && Rest(w, lo, hi) && !w.auto.active
    ensures var w' := Publish(bus, MsgSequence(cmd), w);
            && w'.motor == OnSequence(w.motor, cmd).0 && w'.kin.position == w.kin.position
            && !w'.auto.active && Rest(w', lo, hi)
  {
    var m := MsgSequence(cmd);
    var states, moves := UndisturbedRunIsPublish(bus, Emit(m), Sys(w, [Nil]), 0, lo, hi);
    SoleHandler(bus, MotorSequence, MotorC);
    var w1 := w.(sent := w.sent + [Sent(m, w.now)]);
    assert Ok(w1);
    DeliverOne(bus, MotorC, m, w1);
    SequenceHandled(bus, cmd, w1);
    hide Ok, Frame, Rest, OnSequence, Handle;
  }

  lemma {:induction false} SequenceHandled(bus: Bus, cmd: Sequence, w: World)
    requires Ok(w)
    ensures var w' := Handle(bus, MotorC, MsgSequence(cmd), w);
            w'.motor == OnSequence(w.motor, cmd).0 && w'.kin.position == w.kin.position && w'.auto == w.auto
  {
    hide Frame, RouteOk, OnSequence, Deliver;
    HandlersKeepValid(w.motor, cmd, Tick(0, 0, 0));
    var (s, st) := OnSequence(w.motor, cmd);
    var w1 := w.(motor := s);
    assert Handle(bus, MotorC, MsgSequence(cmd), w) == MotorOnSequence(bus, cmd, w) == Publish(bus, MsgStatus(st), w1);
    StatusKeepsDrive(bus, HandlersOf(bus, MotorStatus), st, w1.(sent := w1.sent + [Sent(MsgStatus(st), w1.now)]));
  }

  // ---- all ticks of a sequence -----------------------------------------------------------------------

  function Ticks(bus: Bus, n: nat, w: World): (w': World)
    requires Ok(w)
    ensures Ok(w')
    decreases n
  {
    if n == 0 then w else Ticks(bus, n - 1, Served(bus, Snap, w))
  }

  /** Distance of a step of duration `d` at `speed`: one tick's way per started tick. */
  function StepWay(d: nat, speed: int): int {
    TicksFor(d, TICK_US) * (speed * TICK_US)
  }

  /** Sum over the steps of a received sequence from `j` on. */
  function Way(cmd: Sequence, j: nat): int
    decreases StepCount(cmd) - j
  {
    if j >= StepCount(cmd) then 0 else StepWay(cmd.steps[j].duration, Clamp(cmd.steps[j].speed)) + Way(cmd, j + 1)
  }

  lemma {:induction false} LimitedWay(cmd: Sequence, j: nat)
    ensures Way(Limited(cmd), j) == Way(cmd, j)
    decreases StepCount(cmd) - j
  {
    LimitedExactly(cmd);
    if j < StepCount(cmd) {
      LimitedWay(cmd, j + 1);
      hide Limited, StepWay;
    }
  }

  function WayLeft(m: MotorState): int
    requires Motor.Valid(m)
  {
    if m.active then StepWay(m.remaining, m.cmd.steps[m.idx].speed) + Way(m.cmd, m.idx + 1) else 0
  }

  /** A tick takes one tick's way off the way left. */
  lemma WayProgress(m: MotorState)
    requires Motor.Valid(m) && m.active
    ensures var t := Tick(m.cmd.cmdId, Current(m).rpm, TICK_US);
            Motor.Valid(OnTick(m, t).0) && WayLeft(m) == Current(m).rpm * TICK_US + WayLeft(OnTick(m, t).0)
  {
    var t := Tick(m.cmd.cmdId, Current(m).rpm, TICK_US);
    var u := Current(m).rpm * TICK_US;
    HandlersKeepValid(m, m.cmd, t);
    if TICK_US < m.remaining {
      assert StepWay(m.remaining, Current(m).rpm) == u + StepWay(m.remaining - TICK_US, Current(m).rpm) by {
        assert (1 + TicksFor(m.remaining - TICK_US, TICK_US)) * u == u + TicksFor(m.remaining - TICK_US, TICK_US) * u;
      }
    } else if TICK_US == m.remaining {
    }
    assert TICK_US >= m.remaining ==> StepWay(m.remaining, Current(m).rpm) == u;
  }

  lemma {:induction false} TicksMove(bus: Bus, n: nat, w: World, lo: real, hi: real)
    requires Wired(bus) && Rest(w, lo, hi) && !w.auto.active && n == TicksLeft(w.motor, TICK_US)
    ensures var w' := Ticks(bus, n, w);
            w'.kin.position == w.kin.position + WayLeft(w.motor) && !w'.motor.active && !w'.auto.active
              && Rest(w', lo, hi)
    decreases n
  {
    if n > 0 {
      var t := Tick(w.motor.cmd.cmdId, Current(w.motor).rpm, TICK_US);
      TickMoves(bus, w, lo, hi);
      TickProgress(w.motor, t);
      WayProgress(w.motor);
      hide Rest, Served, OnTick, Current, WayLeft, TicksLeft, Motor.Valid;
      TicksMove(bus, n - 1, Served(bus, Snap, w), lo, hi);
    }
  }

  // ---- against the ideal -----------------------------------------------------------------------------

  /** Speed times duration, over the steps from `j` on. */
  function Ideal(cmd: Sequence, j: nat): int
    decreases StepCount(cmd) - j
  {
    if j >= StepCount(cmd) then 0 else Clamp(cmd.steps[j].speed) * cmd.steps[j].duration + Ideal(cmd, j + 1)
  }

  /** A step meets the ideal exactly when it stands still or lasts a positive number of whole ticks. */
  lemma StepIsIdeal(d: nat, speed: int)
    ensures StepWay(d, speed) == speed * d <==> speed == 0 || (d > 0 && d % TICK_US == 0)
  {
    TicksForIsCeiling(d, TICK_US);
    var n: int := TicksFor(d, TICK_US);
    Factor(n, speed, d, TICK_US);
    if speed != 0 && n * TICK_US != d {
      NoZero(speed, n * TICK_US - d);
    }
  }

  lemma NoZero(a: int, b: int)
    requires a != 0 && b != 0
    ensures a * b != 0
  {
  }

  lemma {:induction false} StepError(d: nat, speed: int)
    requires SlowEnough(speed)
    ensures -60_000_000 <= StepWay(d, speed) - speed * d <= 60_000_000
  {
    TicksForIsCeiling(d, TICK_US);
    var n: int := TicksFor(d, TICK_US);
    Factor(n, speed, d, TICK_US);
    Bound(speed, n * TICK_US - d);
  }

  lemma Factor(n: int, s: int, d: int, k: int)
    ensures n * (s * k) - s * d == s * (n * k - d)
  {
  }

  lemma {:induction false} Bound(s: int, over: nat)
    requires -6000 <= s <= 6000
    ensures -6000 * over <= s * over <= 6000 * over
  {
    if over > 0 {
      Bound(s, over - 1);
      assert s * over == s * (over - 1) + s;
    }
  }

  predicate MeetsIdeal(step: SubCmd) {
    step.speed == 0 || (step.duration > 0 && step.duration % TICK_US == 0)
  }

  predicate AllMeetIdeal(cmd: Sequence, j: nat) {
    forall i | j <= i < StepCount(cmd) :: MeetsIdeal(cmd.steps[i])
  }

  /** Every speed is forward (1) or backward (-1); speeds of both signs can cancel their errors. */
  predicate OneSign(cmd: Sequence, sign: int) {
    (sign == 1 || sign == -1) && forall i | 0 <= i < StepCount(cmd) :: sign * cmd.steps[i].speed >= 0
  }

  /** Rounding to whole ticks never shortens a step. */
  lemma StepOvershoots(d: nat, speed: int, sign: int)
    requires (sign == 1 || sign == -1) && sign * speed >= 0
    ensures sign * (StepWay(d, speed) - speed * d) >= 0
  {
    TicksForIsCeiling(d, TICK_US);
    var n: int := TicksFor(d, TICK_US);
    Factor(n, speed, d, TICK_US);
    NotNegative(sign * speed, n * TICK_US - d);
  }

  lemma NotNegative(a: nat, b: nat)
    ensures a * b >= 0
  {
  }

  lemma {:induction false} WayIsIdealExactly(cmd: Sequence, j: nat, sign: int)
    requires OneSign(cmd, sign)
    ensures sign * (Way(cmd, j) - Ideal(cmd, j)) >= 0
    ensures Way(cmd, j) == Ideal(cmd, j) <==> AllMeetIdeal(cmd, j)
    decreases StepCount(cmd) - j
  {
    if j < StepCount(cmd) {
      var step := cmd.steps[j];
      ClampKeepsSign(step.speed, sign);
      StepIsIdeal(step.duration, Clamp(step.speed));
      StepOvershoots(step.duration, Clamp(step.speed), sign);
      WayIsIdealExactly(cmd, j + 1, sign);
      hide StepWay;
    }
  }

  lemma ClampKeepsSign(v: int, sign: int)
    requires sign == 1 || sign == -1
    ensures Clamp(v) == 0 <==> v == 0
    ensures sign * v >= 0 ==> sign * Clamp(v) >= 0
  {
  }

  /** Half a tick at full speed goes the way of a whole tick, twice the ideal 0.3 m. */
  lemma HalfTickMisses()
    ensures var c := OneStep(1, SubCmd(6000, 5000));
            Starts(c) && Way(c, 0) == 60_000_000 && Ideal(c, 0) == 30_000_000
  {
    var c := OneStep(1, SubCmd(6000, 5000));
    assert Way(c, 1) == 0 && Ideal(c, 1) == 0;
  }

  /** A step forwards and one as long backwards: back where it started. */
  lemma ThereAndBack(cmdId: uint32, speed: int16, d: uint32)
    requires -6000 <= speed <= 6000
    ensures var there, back, none := SubCmd(speed, d), SubCmd(-speed, d), SubCmd(0, 0);
            Way(Sequence(cmdId, 2, [there, back, none, none, none]), 0) == 0
  {
    var there, back, none := SubCmd(speed, d), SubCmd(-speed, d), SubCmd(0, 0);
    var c := Sequence(cmdId, 2, [there, back, none, none, none]);
    assert Way(c, 2) == 0;
    assert Way(c, 1) == StepWay(d, -speed);
    Opposite(TicksFor(d, TICK_US), speed);
  }

  lemma Opposite(n: int, speed: int)
    ensures n * (-speed * TICK_US) == -(n * (speed * TICK_US))
  {
  }

  lemma {:induction false} WayIsIdeal(cmd: Sequence, j: nat)
    requires AllMeetIdeal(cmd, j)
    ensures Way(cmd, j) == Ideal(cmd, j)
    decreases StepCount(cmd) - j
  {
    if j < StepCount(cmd) {
      ClampKeepsSign(cmd.steps[j].speed, 1);
      StepIsIdeal(cmd.steps[j].duration, Clamp(cmd.steps[j].speed));
      hide StepWay;
      WayIsIdeal(cmd, j + 1);
    }
  }

  lemma {:induction false} WayError(cmd: Sequence, j: nat)
    requires j <= StepCount(cmd)
    ensures var n := StepCount(cmd) - j; -60_000_000 * n <= Way(cmd, j) - Ideal(cmd, j) <= 60_000_000 * n
    decreases StepCount(cmd) - j
  {
    if j < StepCount(cmd) {
      StepError(cmd.steps[j].duration, Clamp(cmd.steps[j].speed));
      WayError(cmd, j + 1);
    }
  }

  /**
    For every handler order: a received sequence, followed by as many ticks as it takes, moves the vehicle by
    exactly the sum over its first five steps of max(1, ceil(d / dt)) ticks at the clamped speed. That is the ideal
    speed times duration when every moving step lasts a positive number of whole ticks, and, if all speeds have one
    sign, only then; it is within 3 m of the ideal in any case.
   */
  lemma {:induction false} Displacement(bus: Bus, cmd: Sequence, w: World, lo: real, hi: real)
    requires Wired(bus) && Rest(w, lo, hi) && !w.auto.active && cmd.numSteps > 0 && cmd.steps[0].duration > 0
    ensures var w' := Ticks(bus, TicksFrom(cmd, 0, TICK_US), Publish(bus, MsgSequence(cmd), w));
            var moved := w'.kin.position - w.kin.position;
            && moved == Way(cmd, 0) && !w'.motor.active && Rest(w', lo, hi)
            && (AllMeetIdeal(cmd, 0) ==> moved == Ideal(cmd, 0))
            && (OneSign(cmd, 1) || OneSign(cmd, -1) ==> (moved == Ideal(cmd, 0) <==> AllMeetIdeal(cmd, 0)))
            && -300_000_000 <= moved - Ideal(cmd, 0) <= 300_000_000
  {
    SequenceAccepted(bus, cmd, w, lo, hi);
    StartedWay(w.motor, cmd);
    TicksMove(bus, TicksFrom(cmd, 0, TICK_US), Publish(bus, MsgSequence(cmd), w), lo, hi);
    AgainstIdeal(cmd);
    hide Rest, Way, Ideal, Limited, Publish, Ticks, OnSequence, TicksFrom, AllMeetIdeal, OneSign, Starts;
  }

  lemma AgainstIdeal(cmd: Sequence)
    ensures AllMeetIdeal(cmd, 0) ==> Way(cmd, 0) == Ideal(cmd, 0)
    ensures OneSign(cmd, 1) || OneSign(cmd, -1) ==> (Way(cmd, 0) == Ideal(cmd, 0) <==> AllMeetIdeal(cmd, 0))
    ensures -300_000_000 <= Way(cmd, 0) - Ideal(cmd, 0) <= 300_000_000
  {
    WayError(cmd, 0);
    hide Way, Ideal, AllMeetIdeal, OneSign;
    if AllMeetIdeal(cmd, 0) {
      WayIsIdeal(cmd, 0);
    }
    if OneSign(cmd, 1) {
      WayIsIdealExactly(cmd, 0, 1);
    } else if OneSign(cmd, -1) {
      WayIsIdealExactly(cmd, 0, -1);
    }
  }

  lemma StartedWay(m: MotorState, cmd: Sequence)
    requires Motor.Valid(m) && Starts(cmd)
    ensures var m' := OnSequence(m, cmd).0;
            && Motor.Valid(m') && TicksLeft(m', TICK_US) == TicksFrom(cmd, 0, TICK_US) && WayLeft(m') == Way(cmd, 0)
  {
    StartedRun(m, cmd, TICK_US);
    LimitedExactly(cmd);
    LimitedWay(cmd, 0);
    hide Limited, StepWay;
  }

  // ---- ticks at rest ---------------------------------------------------------------------------------

  /** A tick at rest stops the speed and cools; `kin` and `thermal` say who was called. */
  predicate Rested(t: Tick, w: World, w': World, kin: bool, thermal: bool) {
    && w'.motor == w.motor && w'.auto == w.auto
    && w'.kin.speed == (if kin then 0 else w.kin.speed)
    && w'.thermal == (if thermal then Heat(w.thermal, t) else w.thermal)
  }

  lemma {:induction false} IdleTickHandled(bus: Bus, c: Component, t: Tick, w: World)
    requires Ok(w) && !w.auto.active && !w.motor.active && t.rpm == 0
    ensures Rested(t, w, Handle(bus, c, MsgTick(t), w), c == KinematicsC, c == ThermalC)
  {
    hide Frame, Ok, Heat;
  }

  lemma {:induction false} IdleTickDelivered(bus: Bus, hs: seq<Component>, t: Tick, w: World)
    requires Ok(w) && !w.auto.active && !w.motor.active && t.rpm == 0 && multiset(hs)[ThermalC] <= 1
    ensures Rested(t, w, Deliver(bus, hs, MsgTick(t), w), KinematicsC in hs, ThermalC in hs)
    decreases |hs|
  {
    hide Frame, Ok, Heat;
    if hs != [] {
      var init, last := hs[..|hs| - 1], hs[|hs| - 1];
      assert hs == init + [last];
      IdleTickDelivered(bus, init, t, w);
      IdleTickHandled(bus, last, t, Deliver(bus, init, MsgTick(t), w));
    }
  }

  /** Once the motor is inactive, the next tick leaves the position and stops the speed, in every handler order. */
  lemma {:induction false} NextTickStops(bus: Bus, w: World, lo: real, hi: real)
    requires Wired(bus) && Rest(w, lo, hi) && !w.auto.active && !w.motor.active
    ensures var w' := Served(bus, Snap, w);
            && w'.kin.position == w.kin.position && w'.kin.speed == 0
            && w'.thermal == Heat(w.thermal, Tick(w.motor.cmd.cmdId, 0, TICK_US))
            && !w'.motor.active && !w'.auto.active && Rest(w', lo, hi)
  {
    TickMoves(bus, w, lo, hi);
    SnapshotIsCurrent(w, lo, hi);
    var t := Snapshot(w.state);
    var hs := HandlersOf(bus, PhysicsTick);
    assert Once(hs, KinematicsC, PhysicsTick in Subscribes(KinematicsC));
    assert Once(hs, ThermalC, PhysicsTick in Subscribes(ThermalC));
    var w1 := w.(sent := w.sent + [Sent(MsgTick(t), w.now)]);
    assert Ok(w1);
    hide Ok, Frame, Rest, Deliver, Heat;
    IdleTickDelivered(bus, hs, t, w1);
  }
}
