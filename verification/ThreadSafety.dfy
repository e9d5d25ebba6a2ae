/** What holds of the services' data in every reachable state, for every interleaving of the threads. */
module ThreadSafety {
  import opened Wrappers
  import opened Messages
  import opened Motor
  import opened Physics
  import opened Environment
  import opened Route
  import opened Mesh
  import opened Threads
  import opened ThreadOrder

  predicate SlowEnough(rpm: int) { -RPM_LIMIT <= rpm <= RPM_LIMIT }

  /** Ticks and statuses within the speed limit, ambient temperatures in [lo, hi], environments in the cache. */
  predicate GoodMsg(m: Msg, n: nat, lo: real, hi: real) {
    match m
    case MsgTick(t) => SlowEnough(t.rpm) && t.dt == TICK_US
    case MsgStatus(s) => SlowEnough(s.rpm)
    case MsgRegion(e) => lo <= e.ambient <= hi
    case MsgFound(entry) => entry < n
    case _ => true
  }

  predicate GoodAct(a: Act, n: nat, lo: real, hi: real) {
    match a
    case Emit(m) => GoodMsg(m, n, lo, hi)
    case Call(_, m) => GoodMsg(m, n, lo, hi)
    case _ => true
  }

  predicate AllGood(t: Todo, n: nat, lo: real, hi: real) {
    t.Next? ==> GoodAct(t.a, n, lo, hi) && AllGood(t.rest, n, lo, hi)
  }

  predicate InRange(lo: real, x: real, hi: real) { lo <= x <= hi }

  /** The motor can heat both parts by up to 600 degrees. */
  predicate Temperate(s: ThermalState, lo: real, hi: real) {
    InRange(lo, s.ambient, hi) && InRange(lo, s.motor, hi + 600.0) && InRange(lo, s.battery, hi + 600.0)
  }

  predicate GoodWorld(w: World, lo: real, hi: real) {
    Ok(w) && SlowEnough(w.state.rpm) && Temperate(w.thermal, lo, hi)
  }

  predicate Safe(s: Sys, lo: real, hi: real) {
    && AllOrdered(s) && GoodWorld(s.w, lo, hi)
    && (forall i | 0 <= i < |s.threads| :: AllGood(s.threads[i], |s.w.env.cache|, lo, hi))
    && (forall i | 0 <= i < |s.threads| :: Checking(s.threads[i]) ==> s.w.auto.active)
  }

  lemma {:induction false} AllGoodGrows(t: Todo, n: nat, n': nat, lo: real, hi: real)
    requires AllGood(t, n, lo, hi) && n <= n'
    ensures AllGood(t, n', lo, hi)
  {
    if t.Next? {
      AllGoodGrows(t.rest, n, n', lo, hi);
    }
  }

  lemma {:induction false} CallsGood(hs: seq<Component>, m: Msg, rest: Todo, n: nat, lo: real, hi: real)
    requires GoodMsg(m, n, lo, hi) && AllGood(rest, n, lo, hi)
    ensures AllGood(Calls(hs, m, rest), n, lo, hi)
    decreases |hs|
  {
    if hs != [] {
      hide GoodMsg;
      CallsGood(hs[..|hs| - 1], m, Next(Call(hs[|hs| - 1], m), rest), n, lo, hi);
    }
  }

  lemma HeatStays(s: ThermalState, t: Tick, lo: real, hi: real)
    requires Temperate(s, lo, hi) && SlowEnough(t.rpm) && t.dt == TICK_US
    ensures Temperate(Heat(s, t), lo, hi)
  {
    assert Seconds(t.dt) == 0.01;
    var r := Physics.Abs(t.rpm) as real;
    assert 0.0 <= r <= 6000.0;
    assert Heat(s, t).motor == s.motor + r * 0.00005 - (s.motor - s.ambient) * 0.0005;
    assert Heat(s, t).battery == s.battery + r * 0.00002 - (s.battery - s.ambient) * 0.0002;
  }

  // ---- one action --------------------------------------------------------------------------------

  /** Which actions touch what. */
  predicate Touches(a: Act, w: World, w': World) {
    && (w.motor == w'.motor || (a.Call? && a.c == MotorC))
    && (w.state == w'.state || (a.Call? && a.c == StateC && a.m.MsgStatus?))
    && (w.auto.active == w'.auto.active || (a.Call? && a.m.MsgRoute?) || a.Check?)
    && |w.env.cache| <= |w'.env.cache|
  }

  lemma DoTouches(bus: Bus, a: Act, rest: Todo, w: World)
    requires Ok(w) && Fits(a, w)
    ensures Touches(a, w, Do(bus, a, rest, w).0)
  {
    hide Ok, Begin, CheckNode;
    if a.Call? {
      if a.c == AutonomousC {
        AutonomousTouches(a.m, rest, w);
      } else if a.c == EnvironmentC || a.c == MotorC {
        CommandTouches(a.c, a.m, rest, w);
      } else {
        OtherTouches(a.c, a.m, rest, w);
      }
    } else if a.Check? {
      CheckTouches(a.x, rest, w);
    }
  }

  lemma AutonomousTouches(m: Msg, rest: Todo, w: World)
    requires Ok(w) && MsgOk(m, w)
    ensures Touches(Call(AutonomousC, m), w, Begin(AutonomousC, m, rest, w).0)
  {
    hide Ok, NodeSequence, OffMap, Metres, Start;
  }

  lemma CommandTouches(c: Component, m: Msg, rest: Todo, w: World)
    requires Ok(w) && MsgOk(m, w) && (c == MotorC || c == EnvironmentC)
    ensures Touches(Call(c, m), w, Begin(c, m, rest, w).0)
  {
    hide Ok, OnSequence, OnTick, Lookup;
  }

  lemma OtherTouches(c: Component, m: Msg, rest: Todo, w: World)
    requires Ok(w) && MsgOk(m, w) && c !in {MotorC, EnvironmentC, AutonomousC}
    ensures Touches(Call(c, m), w, Begin(c, m, rest, w).0)
  {
    hide Ok, Heat, Integrate, KinOnStatus, PowerOnStatus;
  }

  lemma CheckTouches(x: real, rest: Todo, w: World)
    requires Ok(w) && w.auto.active
    ensures Touches(Check(x), w, CheckNode(x, rest, w).0)
  {
    hide Ok, Reached, NodeSequence;
  }

  lemma DoGood(bus: Bus, a: Act, rest: Todo, w: World, lo: real, hi: real)
    requires GoodWorld(w, lo, hi) && Fits(a, w)
    requires AllGood(Next(a, rest), |w.env.cache|, lo, hi)
    ensures var (w', t) := Do(bus, a, rest, w); GoodWorld(w', lo, hi) && AllGood(t, |w'.env.cache|, lo, hi)
  {
    var n := |w.env.cache|;
    DoOk(bus, a, rest, w);
    match a
    case Emit(m) => CallsGood(HandlersOf(bus, m.Id()), m, rest, n, lo, hi);
    case Call(c, m) => BeginGood(c, m, rest, w, lo, hi);
    case Check(x) => CheckGood(x, rest, w, n, lo, hi);
    case _ =>
      hide Ok;
      assert |Do(bus, a, rest, w).0.env.cache| == n;
  }

  lemma CheckGood(x: real, rest: Todo, w: World, n: nat, lo: real, hi: real)
    requires Ok(w) && w.auto.active && AllGood(rest, n, lo, hi)
    ensures AllGood(CheckNode(x, rest, w).1, n, lo, hi) && |CheckNode(x, rest, w).0.env.cache| == |w.env.cache|
  {
    hide Ok, Reached, NodeSequence;
    assert AllGood(Next(Emit(MsgSequence(STOP)), Next(Record(x), rest)), n, lo, hi);
  }

  lemma BeginGood(c: Component, m: Msg, rest: Todo, w: World, lo: real, hi: real)
    requires GoodWorld(w, lo, hi) && MsgOk(m, w)
    requires GoodMsg(m, |w.env.cache|, lo, hi) && AllGood(rest, |w.env.cache|, lo, hi)
    ensures var (w', t) := Begin(c, m, rest, w); GoodWorld(w', lo, hi) && AllGood(t, |w'.env.cache|, lo, hi)
  {
    BeginOk(c, m, rest, w);
    hide Ok, Begin;
    if c == MotorC {
      MotorGood(m, rest, w, lo, hi);
    } else if c == EnvironmentC {
      EnvironmentGood(m, rest, w, lo, hi);
    } else if c == AutonomousC {
      AutonomousGood(m, rest, w, lo, hi);
    } else {
      OtherGood(c, m, rest, w, lo, hi);
    }
  }

  predicate Kept(w: World, w': World, t: Todo, lo: real, hi: real) {
    SlowEnough(w'.state.rpm) && Temperate(w'.thermal, lo, hi) && AllGood(t, |w'.env.cache|, lo, hi)
  }

  lemma MotorGood(m: Msg, rest: Todo, w: World, lo: real, hi: real)
    requires GoodWorld(w, lo, hi) && MsgOk(m, w) && AllGood(rest, |w.env.cache|, lo, hi)
    ensures var (w', t) := Begin(MotorC, m, rest, w); Kept(w, w', t, lo, hi)
  {
    var cmd, tick := if m.MsgSequence? then m.seq_ else w.motor.cmd, if m.MsgTick? then m.tick else Tick(0, 0, 0);
    HandlersKeepValid(w.motor, cmd, tick);
    HandlersKeepValid(OnSequence(w.motor, cmd).0, cmd, tick);
    HandlersKeepValid(OnTick(w.motor, tick).0, cmd, tick);
    hide Motor.Valid, OnSequence, OnTick, Current, RouteOk, Temperate, Quiet;
    assert AllGood(Leave(MotorL, rest), |w.env.cache|, lo, hi);
  }

  lemma EnvironmentGood(m: Msg, rest: Todo, w: World, lo: real, hi: real)
    requires GoodWorld(w, lo, hi) && MsgOk(m, w) && AllGood(rest, |w.env.cache|, lo, hi)
    ensures var (w', t) := Begin(EnvironmentC, m, rest, w); Kept(w, w', t, lo, hi)
  {
    hide Ok, Temperate;
    var n := |w.env.cache|;
    if m.MsgRegion? {
      AllGoodGrows(rest, n, |Store(w.env.cache, m.region)|, lo, hi);
      assert AllGood(Leave(EnvL, rest), |Store(w.env.cache, m.region)|, lo, hi);
    } else {
      assert AllGood(Leave(EnvL, rest), n, lo, hi);
      assert AllGood(Next(Stamp(w.now), Leave(EnvL, rest)), n, lo, hi);
    }
  }

  lemma AutonomousGood(m: Msg, rest: Todo, w: World, lo: real, hi: real)
    requires GoodWorld(w, lo, hi) && MsgOk(m, w) && AllGood(rest, |w.env.cache|, lo, hi)
    ensures var (w', t) := Begin(AutonomousC, m, rest, w); Kept(w, w', t, lo, hi)
  {
    hide Ok, Temperate, NodeSequence, Start, Enter, OffMap, Metres, AllGood;
    var n := |w.env.cache|;
    LeaveGood(rest, n, lo, hi);
  }

  lemma LeaveGood(rest: Todo, n: nat, lo: real, hi: real)
    requires AllGood(rest, n, lo, hi)
    ensures var r := Leave(AutoL, rest);
            && AllGood(r, n, lo, hi)
            && (forall cmd :: AllGood(Next(Emit(MsgSequence(cmd)), r), n, lo, hi))
            && AllGood(Next(Emit(MsgKinematicsRequest), Next(Emit(MsgPowerRequest), r)), n, lo, hi)
            && (forall x :: AllGood(Next(Check(x), r), n, lo, hi))
            && (forall x :: AllGood(Next(Emit(MsgLookup(x, 0.0)), Next(Check(x), r)), n, lo, hi))
  {
    var r := Leave(AutoL, rest);
    assert AllGood(r, n, lo, hi);
    assert AllGood(Next(Emit(MsgPowerRequest), r), n, lo, hi);
    assert forall x :: AllGood(Next(Check(x), r), n, lo, hi);
  }

  lemma OtherGood(c: Component, m: Msg, rest: Todo, w: World, lo: real, hi: real)
    requires c != MotorC && c != EnvironmentC && c != AutonomousC
    requires GoodWorld(w, lo, hi) && MsgOk(m, w)
    requires GoodMsg(m, |w.env.cache|, lo, hi) && AllGood(rest, |w.env.cache|, lo, hi)
    ensures var (w', t) := Begin(c, m, rest, w); Kept(w, w', t, lo, hi)
  {
    hide Ok, Heat;
    if c == ThermalC && m.MsgTick? {
      HeatStays(w.thermal, m.tick, lo, hi);
    }
  }

  // ---- every run ---------------------------------------------------------------------------------

  /** A check stays on solid ground: nobody else can end or restart the route while the lock is held. */
  lemma ActStaysActive(bus: Bus, a: Act, rest: Todo, w: World)
    requires Ok(w) && Fits(a, w) && Ordered(Next(a, rest)) && Wired(bus)
    requires Checking(Next(a, rest)) ==> w.auto.active
    ensures var (w', t) := Do(bus, a, rest, w); Checking(t) ==> w'.auto.active
  {
    DoTouches(bus, a, rest, w);
    var t := Do(bus, a, rest, w).1;
    match a
    case Emit(m) =>
      HandlersSubscribed(bus, m.Id());
      CallsOrdered(HandlersOf(bus, m.Id()), m, rest);
    case Call(c, m) => BeginChecking(c, m, rest, w);
    case Check(x) => CheckChecking(x, rest, w);
    case _ =>
  }

  lemma CheckChecking(x: real, rest: Todo, w: World)
    requires Ok(w) && w.auto.active && !Checking(rest)
    ensures !Checking(CheckNode(x, rest, w).1)
  {
    hide Ok, Reached, NodeSequence;
    assert !Checking(Next(Emit(MsgSequence(STOP)), Next(Record(x), rest)));
  }

  lemma BeginChecking(c: Component, m: Msg, rest: Todo, w: World)
    requires Ok(w) && MsgOk(m, w) && Ordered(Next(Call(c, m), rest))
    ensures var (w', t) := Begin(c, m, rest, w); Checking(t) ==> Checking(rest) || w'.auto.active
    ensures m.MsgRoute? ==> !Checking(rest)
  {
    hide Ok, OnSequence, OnTick, Lookup, Store, NodeSequence, Start, Enter, OffMap, Metres, Quiet;
    if Checking(rest) {
      CheckingHolds(rest);
    }
    var r := Leave(LockOf(c), rest);
    assert Checking(r) == Checking(rest);
    assert forall p, q :: Checking(Next(Emit(p), Next(Emit(q), r))) == Checking(r);
    assert forall p, at :: Checking(Next(Emit(p), Next(Stamp(at), r))) == Checking(r);
  }

  lemma SafeIsSane(s: Sys, lo: real, hi: real)
    requires Safe(s, lo, hi)
    ensures Sane(s)
  {
    hide Ok, Ordered, Temperate;
    forall i | 0 <= i < |s.threads| && s.threads[i].Next? ensures Fits(s.threads[i].a, s.w) {
      assert AllGood(s.threads[i], |s.w.env.cache|, lo, hi) && (Checking(s.threads[i]) ==> s.w.auto.active);
    }
  }

  /** What another thread relies on survives an action of this one. */
  lemma OthersUndisturbed(a: Act, rest: Todo, w: World, w': World, other: Todo, lo: real, hi: real)
    requires Touches(a, w, w') && Ordered(Next(a, rest)) && Ordered(other)
    requires Locks(Next(a, rest)) !! Locks(other)
    requires Wants(a).Some? ==> Wants(a).value !in Locks(other)
    requires AllGood(other, |w.env.cache|, lo, hi) && (Checking(other) ==> w.auto.active)
    ensures AllGood(other, |w'.env.cache|, lo, hi) && (Checking(other) ==> w'.auto.active)
  {
    AllGoodGrows(other, |w.env.cache|, |w'.env.cache|, lo, hi);
    if Checking(other) {
      CheckingHolds(other);
    }
  }

  lemma TakeKeepsSafe(bus: Bus, s: Sys, i: nat, lo: real, hi: real)
    requires Wired(bus) && Safe(s, lo, hi) && i < |s.threads| && Enabled(s, i)
    ensures Sane(s) && Safe(Taken(bus, s, i), lo, hi)
  {
    SafeIsSane(s, lo, hi);
    TakeKeepsOrder(bus, s, i);
    var t := s.threads[i];
    var w' := Do(bus, t.a, t.rest, s.w).0;
    DoGood(bus, t.a, t.rest, s.w, lo, hi);
    ActStaysActive(bus, t.a, t.rest, s.w);
    DoTouches(bus, t.a, t.rest, s.w);
    forall j | 0 <= j < |s.threads| && j != i
      ensures AllGood(s.threads[j], |w'.env.cache|, lo, hi) && (Checking(s.threads[j]) ==> w'.auto.active)
    {
      OthersUndisturbed(t.a, t.rest, s.w, w', s.threads[j], lo, hi);
    }
    hide Do, GoodWorld, AllOrdered, AllGood, Checking, Ok, Fits, Enabled;
  }

  /** The hypothesis on the environment: every region reported has an ambient temperature in the range. */
  predicate Mild(mv: Move, lo: real, hi: real) {
    mv.Submit? && mv.a.Emit? && mv.a.m.MsgRegion? ==> lo <= mv.a.m.region.ambient <= hi
  }

  lemma StepKeepsSafe(bus: Bus, s: Sys, mv: Move, s': Sys, lo: real, hi: real)
    requires Wired(bus) && Safe(s, lo, hi) && Can(s, mv) && Mild(mv, lo, hi)
    requires Step(bus, s, mv, s')
    ensures Safe(s', lo, hi)
  {
    if mv.Take? {
      TakeKeepsSafe(bus, s, mv.i, lo, hi);
    } else {
      StepKeepsOrder(bus, s, mv, s');
      hide Sane, AllOrdered, Ok;
      OtherMoves(bus, s, mv, s', lo, hi);
    }
  }

  lemma OtherMoves(bus: Bus, s: Sys, mv: Move, s': Sys, lo: real, hi: real)
    requires Safe(s, lo, hi) && Step(bus, s, mv, s') && Mild(mv, lo, hi) && !mv.Take? && AllOrdered(s')
    ensures Safe(s', lo, hi)
  {
    hide Sane, AllOrdered, RouteOk, Motor.Valid, Temperate;
    if mv.Submit? {
      assert AllGood(Next(mv.a, Nil), |s.w.env.cache|, lo, hi) && !Checking(Next(mv.a, Nil));
    } else if mv.Speak? {
      var t := s.threads[mv.i];
      assert AllGood(Next(Say, t), |s.w.env.cache|, lo, hi) && Checking(Next(Say, t)) == Checking(t);
    }
  }

  /**
    For every interleaving from idle threads: both temperatures stay in [lo, hi + 600], every tick and every
    status is within 6000 rpm, every tick has the same positive length, and the route invariant holds.
   */
  lemma {:induction false} RunsAreSafe(bus: Bus, states: seq<Sys>, moves: seq<Move>, k: nat, lo: real, hi: real)
    requires Wired(bus) && Run(bus, states, moves) && k < |states|
    requires Idle(states[0]) && GoodWorld(states[0].w, lo, hi)
    requires forall j | 0 <= j < |moves| :: Mild(moves[j], lo, hi)
    ensures Safe(states[k], lo, hi) && Sane(states[k])
  {
    if k > 0 {
      RunsAreSafe(bus, states, moves, k - 1, lo, hi);
      assert Step(bus, states[k - 1], moves[k - 1], states[k]);
      assert Mild(moves[k - 1], lo, hi);
      StepKeepsSafe(bus, states[k - 1], moves[k - 1], states[k], lo, hi);
    }
    SafeIsSane(states[k], lo, hi);
  }

  /** Whatever a thread waits for in a reachable state, the thread at the end of its waits can take a step. */
  lemma NoDeadlock(bus: Bus, states: seq<Sys>, moves: seq<Move>, k: nat, i: nat, lo: real, hi: real)
    returns (next: Sys, path: seq<nat>)
    requires Wired(bus) && Run(bus, states, moves) && k < |states|
    requires Idle(states[0]) && GoodWorld(states[0].w, lo, hi)
    requires forall j | 0 <= j < |moves| :: Mild(moves[j], lo, hi)
    requires i < |states[k].threads| && states[k].threads[i].Next?
    ensures WaitPath(states[k], path) && path[0] == i && Step(bus, states[k], Take(path[|path| - 1]), next)
  {
    RunsAreSafe(bus, states, moves, k, lo, hi);
    path := WaitsEnd(states[k], i);
    next := Make(bus, states[k], Take(path[|path| - 1]));
  }
}
