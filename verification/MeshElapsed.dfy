/** The elapsed time that KinematicsService reports: whole ticks since the sequence began, if its id was new. */
module MeshElapsed {
  import opened Wrappers
  import opened Messages
  import opened Motor
  import opened Physics
  import opened Route
  import opened Mesh
  import opened Threads
  import opened ThreadSafety
  import opened ThreadAlone
  import opened MeshRoute
  import opened MeshMotion

  /** Kinematics counts for the motor's sequence. */
  predicate Counting(w: World) {
    w.kin.cmdId == w.motor.cmd.cmdId
  }

  predicate SameCount(w: World, w': World) {
    w'.kin.cmdId == w.kin.cmdId && w'.kin.elapsed == w.kin.elapsed
  }

  /** Later statuses of a sequence do not restart its clock. */
  lemma {:induction false} StatusKeepsCount(bus: Bus, hs: seq<Component>, s: Status, w: World)
    requires Ok(w) && s.cmdId == w.kin.cmdId
    ensures SameCount(w, Deliver(bus, hs, MsgStatus(s), w))
    decreases |hs|
  {
    hide Ok, Frame;
    if hs != [] {
      StatusKeepsCount(bus, hs[..|hs| - 1], s, w);
      StatusCounted(bus, hs[|hs| - 1], s, Deliver(bus, hs[..|hs| - 1], MsgStatus(s), w));
    }
  }

  lemma {:induction false} StatusCounted(bus: Bus, c: Component, s: Status, w: World)
    requires Ok(w) && s.cmdId == w.kin.cmdId
    ensures SameCount(w, Handle(bus, c, MsgStatus(s), w))
  {
    hide Ok, Frame;
  }

  /** Kinematics handles the first status of a sequence once, and does nothing else about it. */
  lemma {:induction false} StatusStarts(bus: Bus, hs: seq<Component>, s: Status, w: World)
    requires Ok(w) && multiset(hs)[KinematicsC] <= 1
    ensures Deliver(bus, hs, MsgStatus(s), w).kin == if KinematicsC in hs then KinOnStatus(w.kin, s) else w.kin
    decreases |hs|
  {
    hide Ok, Frame, KinOnStatus;
    if hs != [] {
      var init, last := hs[..|hs| - 1], hs[|hs| - 1];
      assert hs == init + [last];
      StatusStarts(bus, init, s, w);
      StatusReceived(bus, last, s, Deliver(bus, init, MsgStatus(s), w));
    }
  }

  lemma {:induction false} StatusReceived(bus: Bus, c: Component, s: Status, w: World)
    requires Ok(w)
    ensures Handle(bus, c, MsgStatus(s), w).kin == if c == KinematicsC then KinOnStatus(w.kin, s) else w.kin
  {
    hide Ok, Frame, KinOnStatus;
  }

  // ---- one tick ------------------------------------------------------------------------------------

  const WRAP := 0x1_0000_0000

  predicate Counted(t: Tick, w: World, w': World, counted: bool) {
    && Counting(w') && w'.kin.cmdId == w.kin.cmdId
    && w'.kin.elapsed == (if counted then (w.kin.elapsed + t.dt) % WRAP else w.kin.elapsed)
  }

  lemma {:induction false} MotorCounted(bus: Bus, t: Tick, w: World)
    requires Ok(w) && Counting(w)
    ensures Counted(t, w, MotorOnTick(bus, t, w), false)
  {
    hide Frame, RouteOk, OnTick, Deliver;
    MotorTicked(bus, t, w);
    HandlersKeepValid(w.motor, w.motor.cmd, t);
    var (m, s) := OnTick(w.motor, t);
    if s.Some? {
      var w1 := w.(motor := m);
      StatusKeepsCount(bus, HandlersOf(bus, MotorStatus), s.value,
        w1.(sent := w1.sent + [Sent(MsgStatus(s.value), w1.now)]));
    }
  }

  lemma {:induction false} TickCounted(bus: Bus, c: Component, t: Tick, w: World)
    requires Ok(w) && !w.auto.active && Counting(w) && t.cmdId == w.kin.cmdId
    ensures Counted(t, w, Handle(bus, c, MsgTick(t), w), c == KinematicsC)
  {
    if c == MotorC {
      MotorCounted(bus, t, w);
    }
    hide Ok, Frame, MotorOnTick, OnTick, Heat;
  }

  lemma {:induction false} TickCountedByAll(bus: Bus, hs: seq<Component>, t: Tick, w: World)
    requires Ok(w) && !w.auto.active && Counting(w) && t.cmdId == w.kin.cmdId
    requires multiset(hs)[MotorC] <= 1 && multiset(hs)[KinematicsC] <= 1
    ensures Counted(t, w, Deliver(bus, hs, MsgTick(t), w), KinematicsC in hs)
    decreases |hs|
  {
    hide Frame, RouteOk, OnTick, Motor.Valid;
    if hs != [] {
      var init, last := hs[..|hs| - 1], hs[|hs| - 1];
      assert hs == init + [last];
      TickDelivered(bus, init, t, w);
      TickCountedByAll(bus, init, t, w);
      TickCounted(bus, last, t, Deliver(bus, init, MsgTick(t), w));
    }
  }

  lemma {:induction false} TickCounts(bus: Bus, w: World, lo: real, hi: real)
    requires Wired(bus) && Rest(w, lo, hi) && !w.auto.active && Counting(w)
    ensures var w' := Served(bus, Snap, w);
            && Counting(w') && w'.kin.cmdId == w.kin.cmdId && w'.kin.elapsed == (w.kin.elapsed + TICK_US) % WRAP
  {
    SnapshotIsCurrent(w, lo, hi);
    var t := Snapshot(w.state);
    var hs := HandlersOf(bus, PhysicsTick);
    assert Once(hs, MotorC, PhysicsTick in Subscribes(MotorC));
    assert Once(hs, KinematicsC, PhysicsTick in Subscribes(KinematicsC));
    var w1 := w.(sent := w.sent + [Sent(MsgTick(t), w.now)]);
    assert Ok(w1);
    hide Ok, Frame, Rest, Deliver, OnTick;
    TickCountedByAll(bus, hs, t, w1);
  }

  // ---- a whole sequence ------------------------------------------------------------------------------

  /** Where the count starts: at zero for a new id, and where it was for the id that was counted last. */
  function StartCount(k: KinState, cmdId: uint32): uint32 {
    if cmdId == k.cmdId then k.elapsed else 0
  }

  lemma {:induction false} SequenceStartsCount(bus: Bus, cmd: Sequence, w: World)
    requires Wired(bus) && Ok(w) && Starts(cmd)
    ensures var w' := Publish(bus, MsgSequence(cmd), w);
            w'.kin.cmdId == cmd.cmdId && w'.kin.elapsed == StartCount(w.kin, cmd.cmdId)
  {
    var m := MsgSequence(cmd);
    SoleHandler(bus, MotorSequence, MotorC);
    var w1 := w.(sent := w.sent + [Sent(m, w.now)]);
    assert Ok(w1);
    hide Ok, Frame, Handle;
    DeliverOne(bus, MotorC, m, w1);
    CountStarted(bus, cmd, w1);
  }

  lemma {:induction false} CountStarted(bus: Bus, cmd: Sequence, w: World)
    requires Wired(bus) && Ok(w) && Starts(cmd)
    ensures var w' := Handle(bus, MotorC, MsgSequence(cmd), w);
            w'.kin.cmdId == cmd.cmdId && w'.kin.elapsed == StartCount(w.kin, cmd.cmdId)
  {
    var (s, st) := OnSequence(w.motor, cmd);
    assert st.active && st.cmdId == cmd.cmdId;
    HandlersKeepValid(w.motor, cmd, Tick(0, 0, 0));
    hide Frame, RouteOk, Motor.Valid, OnSequence, Deliver, Limited, Starts, Wired;
    StatusArrives(bus, st, w.(motor := s));
  }

  lemma {:induction false} StatusArrives(bus: Bus, st: Status, w: World)
    requires Wired(bus) && Ok(w)
    ensures Publish(bus, MsgStatus(st), w).kin == KinOnStatus(w.kin, st)
  {
    var hs := HandlersOf(bus, MotorStatus);
    assert Once(hs, KinematicsC, MotorStatus in Subscribes(KinematicsC));
    var w1 := w.(sent := w.sent + [Sent(MsgStatus(st), w.now)]);
    assert Ok(w1);
    hide Ok, Frame, Wired, Deliver, KinOnStatus;
    StatusStarts(bus, hs, st, w1);
  }

  function CountAfter(e: uint32, n: nat): uint32 { (e + n * TICK_US) % WRAP }

  lemma {:induction false} TicksCount(bus: Bus, n: nat, w: World, lo: real, hi: real)
    requires Wired(bus) && Rest(w, lo, hi) && !w.auto.active && Counting(w)
    ensures var w' := Ticks(bus, n, w);
            w'.kin.cmdId == w.kin.cmdId && w'.kin.elapsed == CountAfter(w.kin.elapsed, n)
    decreases n
  {
    hide *;
    RestOk(w, lo, hi);
    TicksUnfold(bus, n, w);
    if n > 0 {
      TickMoves(bus, w, lo, hi);
      TickCounts(bus, w, lo, hi);
      TicksCount(bus, n - 1, Served(bus, Snap, w), lo, hi);
    }
    CountOn(w.kin.elapsed, n);
  }

  lemma TicksUnfold(bus: Bus, n: nat, w: World)
    requires Ok(w)
    ensures Entry(Snap) && Ticks(bus, n, w) == if n == 0 then w else Ticks(bus, n - 1, Served(bus, Snap, w))
  {
    hide Ok, Served;
  }

  lemma CountOn(e: uint32, n: nat)
    ensures if n == 0 then CountAfter(e, 0) == e else CountAfter((e + TICK_US) % WRAP, n - 1) == CountAfter(e, n)
  {
    if n > 0 {
      Wraps(e, n);
    }
  }

  lemma Wraps(e: uint32, n: nat)
    requires n > 0
    ensures ((e + TICK_US) % WRAP + (n - 1) * TICK_US) % WRAP == (e + n * TICK_US) % WRAP
  {
  }

  /**
    After a sequence was accepted and n ticks, whether it is still running or not, the elapsed time is n ticks
    modulo 2^32, counted from where StartCount says; so it is the time since the sequence began exactly when
    its id was not the one counted last, or that count stood at zero.
   */
  lemma {:induction false} ElapsedIsTicks(bus: Bus, cmd: Sequence, n: nat, w: World, lo: real, hi: real)
    requires Wired(bus) && Rest(w, lo, hi) && !w.auto.active && Starts(cmd)
    ensures var k := Ticks(bus, n, Publish(bus, MsgSequence(cmd), w)).kin;
            && k.cmdId == cmd.cmdId && k.elapsed == (StartCount(w.kin, cmd.cmdId) + n * TICK_US) % WRAP
            && (k.elapsed == n * TICK_US % WRAP <==> cmd.cmdId != w.kin.cmdId || w.kin.elapsed == 0)
  {
    SequenceAccepted(bus, cmd, w, lo, hi);
    SequenceStartsCount(bus, cmd, w);
    var w1 := Publish(bus, MsgSequence(cmd), w);
    assert w1.motor.cmd.cmdId == cmd.cmdId;
    hide Rest, Publish, Wired, OnSequence, Limited;
    TicksCount(bus, n, w1, lo, hi);
    NoWrapIsZero(StartCount(w.kin, cmd.cmdId), n);
  }

  lemma NoWrapIsZero(e: uint32, n: nat)
    ensures (e + n * TICK_US) % WRAP == n * TICK_US % WRAP <==> e == 0
  {
  }

  lemma {:induction false} TicksRest(bus: Bus, n: nat, w: World, lo: real, hi: real)
    requires Wired(bus) && Rest(w, lo, hi) && !w.auto.active
    ensures Rest(Ticks(bus, n, w), lo, hi) && !Ticks(bus, n, w).auto.active
    decreases n
  {
    if n > 0 {
      TickMoves(bus, w, lo, hi);
      var w1 := Served(bus, Snap, w);
      hide Wired, Rest, Served;
      TicksRest(bus, n - 1, w1, lo, hi);
    }
  }

  lemma {:induction false} ElapsedAfter(bus: Bus, cmd: Sequence, n: nat, w: World, lo: real, hi: real)
    requires Wired(bus) && Rest(w, lo, hi) && !w.auto.active && Starts(cmd)
    ensures var w' := Ticks(bus, n, Publish(bus, MsgSequence(cmd), w));
            && w'.kin.cmdId == cmd.cmdId && w'.kin.elapsed == CountAfter(StartCount(w.kin, cmd.cmdId), n)
            && Rest(w', lo, hi) && !w'.auto.active
  {
    SequenceAccepted(bus, cmd, w, lo, hi);
    ElapsedIsTicks(bus, cmd, n, w, lo, hi);
    TicksRest(bus, n, Publish(bus, MsgSequence(cmd), w), lo, hi);
    hide Rest, Wired, Publish, Ticks, Limited, Starts, StartCount;
  }

  /** `n` ticks of a sequence, then `m` of another with the same id: the first ones are counted again. */
  lemma {:induction false} SameIdCountsOn(bus: Bus, cmd: Sequence, n: nat, next: Sequence, m: nat, w: World, lo: real,
      hi: real)
    requires Wired(bus) && Rest(w, lo, hi) && !w.auto.active
    requires Starts(cmd) && Starts(next) && next.cmdId == cmd.cmdId
    ensures var w1 := Ticks(bus, n, Publish(bus, MsgSequence(cmd), w));
            var k := Ticks(bus, m, Publish(bus, MsgSequence(next), w1)).kin;
            k.elapsed == CountAfter(StartCount(w.kin, cmd.cmdId), n + m)
  {
    RestOk(w, lo, hi);
    hide Wired, Rest, Starts, Limited, Publish, Ticks, StartCount, CountAfter, Ok;
    ElapsedAfter(bus, cmd, n, w, lo, hi);
    var w1 := Ticks(bus, n, Publish(bus, MsgSequence(cmd), w));
    ElapsedAfter(bus, next, m, w1, lo, hi);
    CountGoesOn(w1.kin, StartCount(w.kin, cmd.cmdId), n, m);
  }

  lemma RestOk(w: World, lo: real, hi: real)
    requires Rest(w, lo, hi)
    ensures Ok(w)
  {
  }

  lemma CountGoesOn(k: KinState, e: uint32, n: nat, m: nat)
    requires k.elapsed == CountAfter(e, n)
    ensures CountAfter(StartCount(k, k.cmdId), m) == CountAfter(e, n + m)
  {
    assert (n + m) * TICK_US == n * TICK_US + m * TICK_US;
  }

  /** From the start: 999 for one tick, and again for one tick, leaves the second at two ticks. */
  lemma {:induction false} ReusedIdCountsTwoTicks(bus: Bus, cmd: Sequence, w: World, now: int, supply: (real, real))
    requires Wired(bus) && w == Fresh(now, supply) && cmd == OneStep(999, SubCmd(1000, TICK_US))
    ensures Ok(w)
    ensures var m := MsgSequence(cmd);
            Ticks(bus, 1, Publish(bus, m, Ticks(bus, 1, Publish(bus, m, w)))).kin.elapsed == 2 * TICK_US
  {
    hide *;
    FreshRests(now, supply, 20.0, 20.0);
    RestOk(w, 20.0, 20.0);
    FreshIsInactive(w, now, supply);
    OneTickStarts(cmd);
    SameIdCountsOn(bus, cmd, 1, cmd, 1, w, 20.0, 20.0);
  }

  lemma FreshIsInactive(w: World, now: int, supply: (real, real))
    requires w == Fresh(now, supply)
    ensures !w.auto.active && CountAfter(StartCount(w.kin, 999), 2) == 2 * TICK_US
  {
  }

  lemma OneTickStarts(cmd: Sequence)
    requires cmd == OneStep(999, SubCmd(1000, TICK_US))
    ensures Starts(cmd) && cmd.cmdId == 999
  {
    assert Limited(cmd).steps[0] == SubCmd(1000, TICK_US);
  }
}
