/** The temperatures over the ticks: both approach what the ambient temperature and the speed amount to. */
module MeshHeat {
  import opened Wrappers
  import opened Messages
  import opened Motor
  import opened Physics
  import opened Mesh
  import opened Threads
  import opened ThreadSafety
  import opened ThreadAlone
  import opened MeshRoute
  import opened MeshRun
  import opened MeshMotion

  // ---- one tick ------------------------------------------------------------------------------------

  lemma {:induction false} TickWarms(bus: Bus, c: Component, t: Tick, w: World)
    requires Ok(w)
    ensures Handle(bus, c, MsgTick(t), w).thermal == if c == ThermalC then Heat(w.thermal, t) else w.thermal
  {
    hide Ok, Heat, Publish;
    if c == MotorC {
      MotorWarms(bus, t, w);
    }
  }

  lemma {:induction false} MotorWarms(bus: Bus, t: Tick, w: World)
    requires Ok(w)
    ensures MotorOnTick(bus, t, w).thermal == w.thermal
  {
    HandlersKeepValid(w.motor, w.motor.cmd, t);
    hide Motor.Valid, OnTick, Publish;
  }

  lemma {:induction false} TickDeliveredWarms(bus: Bus, hs: seq<Component>, t: Tick, w: World)
    requires Ok(w) && multiset(hs)[ThermalC] <= 1
    ensures Deliver(bus, hs, MsgTick(t), w).thermal == if ThermalC in hs then Heat(w.thermal, t) else w.thermal
    decreases |hs|
  {
    hide Ok, Heat, Handle, Frame;
    if hs != [] {
      var init, last := hs[..|hs| - 1], hs[|hs| - 1];
      assert hs == init + [last];
      TickDeliveredWarms(bus, init, t, w);
      TickWarms(bus, last, t, Deliver(bus, init, MsgTick(t), w));
    }
  }

  /** The clock's tick reaches ThermalService once, with the motor's speed, whatever else it sets off. */
  lemma {:induction false} TickHeats(bus: Bus, w: World, lo: real, hi: real)
    requires Wired(bus) && Rest(w, lo, hi)
    ensures Served(bus, Snap, w).thermal == Heat(w.thermal, Tick(w.motor.cmd.cmdId, Current(w.motor).rpm, TICK_US))
    ensures Rest(Served(bus, Snap, w), lo, hi)
  {
    var states, moves := UndisturbedRunIsPublish(bus, Snap, Sys(w, [Nil]), 0, lo, hi);
    SnapshotIsCurrent(w, lo, hi);
    var t := Snapshot(w.state);
    var hs := HandlersOf(bus, PhysicsTick);
    assert Once(hs, ThermalC, PhysicsTick in Subscribes(ThermalC));
    var w1 := w.(sent := w.sent + [Sent(MsgTick(t), w.now)]);
    assert Ok(w1);
    hide Ok, Frame, Rest, Deliver, Heat, Wired, Snapshot;
    TickDeliveredWarms(bus, hs, t, w1);
  }

  // ---- many ticks ------------------------------------------------------------------------------------

  function Pow(r: real, n: nat): real {
    if n == 0 then 1.0 else r * Pow(r, n - 1)
  }

  /** What both temperatures tend to at a constant speed: a tenth of a degree per rpm above ambient. */
  function Target(s: ThermalState, rpm: int): real {
    s.ambient + (if rpm < 0 then -rpm else rpm) as real / 10.0
  }

  /** `n` ticks at `rpm` scale the distances to that by (1 - 0.0005)^n and (1 - 0.0002)^n. */
  predicate Heated(n: nat, rpm: int, s: ThermalState, s': ThermalState) {
    && s'.ambient == s.ambient
    && s'.motor - Target(s, rpm) == Pow(1.0 - 0.0005, n) * (s.motor - Target(s, rpm))
    && s'.battery - Target(s, rpm) == Pow(1.0 - 0.0002, n) * (s.battery - Target(s, rpm))
  }

  lemma HeatOnce(n: nat, s: ThermalState, cmdId: uint32, rpm: int16, s': ThermalState)
    requires Heated(n, rpm, Heat(s, Tick(cmdId, rpm, TICK_US)), s')
    ensures Heated(n + 1, rpm, s, s')
  {
    var h, target := Heat(s, Tick(cmdId, rpm, TICK_US)), Target(s, rpm);
    assert Seconds(TICK_US) == 0.01;
    assert h.motor - target == (1.0 - 0.0005) * (s.motor - target);
    assert h.battery - target == (1.0 - 0.0002) * (s.battery - target);
    Scale(Pow(1.0 - 0.0005, n), 1.0 - 0.0005, s.motor - target);
    Scale(Pow(1.0 - 0.0002, n), 1.0 - 0.0002, s.battery - target);
  }

  lemma Scale(p: real, r: real, d: real)
    ensures p * (r * d) == (r * p) * d
  {
  }

  function Speed(bus: Bus, i: nat, w: World): int16
    requires Ok(w)
  {
    Current(Ticks(bus, i, w).motor).rpm
  }

  /**
    As long as the speed is constant, every tick scales the distances of both temperatures to a tenth of a degree
    per rpm above ambient, in every handler order, on a route or not.
   */
  lemma {:induction false} HeatingIsExponential(bus: Bus, n: nat, w: World, rpm: int16, lo: real, hi: real)
    requires Wired(bus) && Rest(w, lo, hi) && forall i | 0 <= i < n :: Speed(bus, i, w) == rpm
    ensures Heated(n, rpm, w.thermal, Ticks(bus, n, w).thermal)
    decreases n
  {
    if n > 0 {
      assert Speed(bus, 0, w) == rpm;
      TickHeats(bus, w, lo, hi);
      var w1 := Served(bus, Snap, w);
      hide Rest, Served, Heat, Heated, Current, Wired;
      forall i | 0 <= i < n - 1 ensures Speed(bus, i, w1) == rpm {
        assert Speed(bus, i + 1, w) == rpm;
      }
      HeatingIsExponential(bus, n - 1, w1, rpm, lo, hi);
      HeatOnce(n - 1, w.thermal, w.motor.cmd.cmdId, rpm, Ticks(bus, n - 1, w1).thermal);
    }
  }

  /** At rest the distances to the ambient temperature itself shrink so. */
  lemma {:induction false} CoolingIsExponential(bus: Bus, n: nat, w: World, lo: real, hi: real)
    requires Wired(bus) && Rest(w, lo, hi) && !w.auto.active && !w.motor.active
    ensures Heated(n, 0, w.thermal, Ticks(bus, n, w).thermal)
  {
    forall i | 0 <= i < n ensures Speed(bus, i, w) == 0 {
      StaysInactive(bus, i, w, lo, hi);
    }
    hide Wired, Rest, Speed, Heated;
    HeatingIsExponential(bus, n, w, 0, lo, hi);
  }

  lemma {:induction false} StaysInactive(bus: Bus, n: nat, w: World, lo: real, hi: real)
    requires Wired(bus) && Rest(w, lo, hi) && !w.auto.active && !w.motor.active
    ensures !Ticks(bus, n, w).motor.active
    decreases n
  {
    if n > 0 {
      NextTickStops(bus, w, lo, hi);
      hide Wired, Rest, Served;
      StaysInactive(bus, n - 1, Served(bus, Snap, w), lo, hi);
    }
  }

  // ---- the first step of a sequence ------------------------------------------------------------------

  lemma {:induction false} StepLasts(bus: Bus, n: nat, w: World, lo: real, hi: real)
    requires Wired(bus) && Rest(w, lo, hi) && !w.auto.active && w.motor.active
    requires n < TicksFor(w.motor.remaining, TICK_US)
    ensures Speed(bus, n, w) == Current(w.motor).rpm
    decreases n
  {
    if n > 0 {
      TickMoves(bus, w, lo, hi);
      var w1 := Served(bus, Snap, w);
      assert w1.motor == w.motor.(remaining := w.motor.remaining - TICK_US);
      hide Wired, Rest, Served;
      StepLasts(bus, n - 1, w1, lo, hi);
    }
  }

  /** During its first step, a received sequence heats at the speed of that step, brought within the limit. */
  lemma {:induction false} SequenceHeats(bus: Bus, cmd: Sequence, n: nat, w: World, lo: real, hi: real)
    requires Wired(bus) && Rest(w, lo, hi) && !w.auto.active
    requires cmd.numSteps > 0 && cmd.steps[0].duration > 0 && n <= TicksFor(cmd.steps[0].duration, TICK_US)
    ensures Heated(n, Clamp(cmd.steps[0].speed), w.thermal, Ticks(bus, n, Publish(bus, MsgSequence(cmd), w)).thermal)
  {
    SequenceAccepted(bus, cmd, w, lo, hi);
    LimitedExactly(cmd);
    var w1 := Publish(bus, MsgSequence(cmd), w);
    assert w1.motor.active && w1.motor.remaining == cmd.steps[0].duration && w1.thermal == w.thermal;
    assert Current(w1.motor).rpm == Clamp(cmd.steps[0].speed);
    hide Wired, Rest, Publish, Limited, Speed, Heated, OnSequence, Current;
    forall i | 0 <= i < n ensures Speed(bus, i, w1) == Clamp(cmd.steps[0].speed) {
      StepLasts(bus, i, w1, lo, hi);
    }
    HeatingIsExponential(bus, n, w1, Clamp(cmd.steps[0].speed), lo, hi);
  }
}
