/** A dispatch that no other thread disturbs computes Publish; so what the interleaved runs keep, Publish keeps. */
module ThreadAlone {
  import opened Wrappers
  import opened Messages
  import opened Motor
  import opened Physics
  import opened Environment
  import opened Route
  import opened Mesh
  import opened MeshTraffic
  import opened Threads
  import opened ThreadOrder
  import opened ThreadSafety
  import opened ThreadCoherence

  /** `n` actions of one thread, nothing in between. */
  predicate Runs(bus: Bus, n: nat, w: World, t: Todo, w': World, t': Todo) {
    if n == 0 then w == w' && t == t'
    else t.Next? && Ok(w) && Fits(t.a, w) && var (w1, t1) := Do(bus, t.a, t.rest, w); Runs(bus, n - 1, w1, t1, w', t')
  }

  lemma {:induction false} Join(bus: Bus, n: nat, n': nat, w: World, t: Todo, w1: World, t1: Todo, w2: World, t2: Todo)
    requires Runs(bus, n, w, t, w1, t1) && Runs(bus, n', w1, t1, w2, t2)
    ensures Runs(bus, n + n', w, t, w2, t2)
    decreases n
  {
    hide Do, Ok, Fits;
    if n > 0 {
      var (w0, t0) := Do(bus, t.a, t.rest, w);
      Join(bus, n - 1, n', w0, t0, w1, t1, w2, t2);
    }
  }

  lemma One(bus: Bus, w: World, a: Act, rest: Todo)
    requires Ok(w) && Fits(a, w)
    ensures Runs(bus, 1, w, Next(a, rest), Do(bus, a, rest, w).0, Do(bus, a, rest, w).1)
  {
    hide Do, Ok, Fits;
    var (w1, t1) := Do(bus, a, rest, w);
    assert Runs(bus, 0, w1, t1, w1, t1);
  }

  /** One action, then more. */
  lemma Lead(bus: Bus, n: nat, w: World, a: Act, rest: Todo, w2: World, t2: Todo)
    requires Ok(w) && Fits(a, w)
    requires var (w1, t1) := Do(bus, a, rest, w); Runs(bus, n, w1, t1, w2, t2)
    ensures Runs(bus, n + 1, w, Next(a, rest), w2, t2)
  {
    hide Do, Ok, Fits;
  }

  lemma {:induction false} PublishRuns(bus: Bus, m: Msg, w: World, rest: Todo) returns (n: nat)
    requires Ok(w) && MsgOk(m, w)
    ensures Runs(bus, n, w, Next(Emit(m), rest), Publish(bus, m, w), rest)
    decreases Rank(m.Id()), 3, 0
  {
    n := DeliverRuns(bus, HandlersOf(bus, m.Id()), m, Post(m, w), rest);
    hide Runs, Ok;
    Lead(bus, n, w, Emit(m), rest, Publish(bus, m, w), rest);
    n := n + 1;
  }

  lemma LastHandler(bus: Bus, hs: seq<Component>, m: Msg, w: World, rest: Todo)
    requires hs != [] && Ok(w) && MsgOk(m, w)
    ensures var init, last := hs[..|hs| - 1], hs[|hs| - 1];
            && MsgOk(m, Deliver(bus, init, m, w))
            && Deliver(bus, hs, m, w) == Handle(bus, last, m, Deliver(bus, init, m, w))
            && Calls(hs, m, rest) == Calls(init, m, Next(Call(last, m), rest))
  {
    hide Ok, Handle;
  }

  lemma {:induction false} DeliverRuns(bus: Bus, hs: seq<Component>, m: Msg, w: World, rest: Todo) returns (n: nat)
    requires Ok(w) && MsgOk(m, w)
    ensures Runs(bus, n, w, Calls(hs, m, rest), Deliver(bus, hs, m, w), rest)
    decreases Rank(m.Id()), 2, |hs|
  {
    if hs == [] {
      n := 0;
    } else {
      hide Runs, Ok, Frame, Handle, Deliver, Calls, Rank, Msg.Id, MsgOk;
      var init, last := hs[..|hs| - 1], hs[|hs| - 1];
      n := DeliverRuns(bus, init, m, w, Next(Call(last, m), rest));
      n := LastRuns(bus, n, hs, m, w, rest);
    }
  }

  lemma {:induction false} LastRuns(bus: Bus, k: nat, hs: seq<Component>, m: Msg, w: World, rest: Todo) returns (n: nat)
    requires hs != [] && Ok(w) && MsgOk(m, w)
    requires var init, last := hs[..|hs| - 1], hs[|hs| - 1];
             Runs(bus, k, w, Calls(init, m, Next(Call(last, m), rest)), Deliver(bus, init, m, w),
               Next(Call(last, m), rest))
    ensures Runs(bus, n, w, Calls(hs, m, rest), Deliver(bus, hs, m, w), rest)
    decreases Rank(m.Id()), 2, 0
  {
    hide Runs, Ok, Frame, Handle, Deliver, Calls, Rank, Msg.Id, MsgOk;
    var init, last := hs[..|hs| - 1], hs[|hs| - 1];
    LastHandler(bus, hs, m, w, rest);
    var w1 := Deliver(bus, init, m, w);
    n := HandleRuns(bus, last, m, w1, rest);
    Join(bus, k, n, w, Calls(hs, m, rest), w1, Next(Call(last, m), rest), Deliver(bus, hs, m, w), rest);
    n := k + n;
  }

  /** A message, then the end of a critical section. */
  lemma {:induction false} EmitLeave(bus: Bus, m: Msg, w: World, l: Lock, rest: Todo) returns (n: nat)
    requires Ok(w) && MsgOk(m, w)
    ensures Runs(bus, n, w, Next(Emit(m), Leave(l, rest)), Publish(bus, m, w), rest)
    decreases Rank(m.Id()), 4, 0
  {
    n := PublishRuns(bus, m, w, Leave(l, rest));
    hide Runs, Ok;
    var w' := Publish(bus, m, w);
    One(bus, w', Unlock(l), rest);
    Join(bus, n, 1, w, Next(Emit(m), Leave(l, rest)), w', Leave(l, rest), w', rest);
    n := n + 1;
  }

  lemma {:induction false} HandleRuns(bus: Bus, c: Component, m: Msg, w: World, rest: Todo) returns (n: nat)
    requires Ok(w) && MsgOk(m, w)
    ensures Runs(bus, n, w, Next(Call(c, m), rest), Handle(bus, c, m, w), rest)
    decreases Rank(m.Id()), 1, 0
  {
    BeginOk(c, m, rest, w);
    hide Runs, Ok, Begin, Handle, Publishing;
    if !Publishing(c, m) {
      n := QuietRuns(bus, c, m, w, rest);
    } else if c == AutonomousC {
      n := AutonomousRuns(bus, m, w, rest);
    } else if c == EnvironmentC {
      n := EnvironmentRuns(bus, m, w, rest);
    } else {
      n := OtherRuns(bus, c, m, w, rest);
    }
    CallRuns(bus, n, c, m, w, rest, Handle(bus, c, m, w));
    n := n + 1;
  }

  lemma CallRuns(bus: Bus, n: nat, c: Component, m: Msg, w: World, rest: Todo, w2: World)
    requires Ok(w) && MsgOk(m, w)
    requires var (w1, t1) := Begin(c, m, rest, w); Runs(bus, n, w1, t1, w2, rest)
    ensures Runs(bus, n + 1, w, Next(Call(c, m), rest), w2, rest)
  {
    hide Runs, Ok, Begin;
    Lead(bus, n, w, Call(c, m), rest, w2, rest);
  }

  lemma QuietRuns(bus: Bus, c: Component, m: Msg, w: World, rest: Todo) returns (n: nat)
    requires Ok(w) && MsgOk(m, w) && !Publishing(c, m)
    ensures var (w1, t1) := Begin(c, m, rest, w); Runs(bus, n, w1, t1, Handle(bus, c, m, w), rest)
  {
    hide Ok, Runs, Quiet, Traffic;
    QuietTraffic(bus, c, m, w);
    One(bus, Quiet(c, m, w), Unlock(LockOf(c)), rest);
    n := 1;
  }

  lemma {:induction false} OtherRuns(bus: Bus, c: Component, m: Msg, w: World, rest: Todo) returns (n: nat)
    requires Ok(w) && MsgOk(m, w) && Publishing(c, m) && c != AutonomousC && c != EnvironmentC
    ensures var (w1, t1) := Begin(c, m, rest, w); Runs(bus, n, w1, t1, Handle(bus, c, m, w), rest)
    decreases Rank(m.Id()), 0, 1
  {
    hide Ok, Runs;
    match c
    case KinematicsC =>
      n := PublishRuns(bus, MsgKinematics(Report(w.kin)), w, rest);
    case PowerC => n := PublishRuns(bus, MsgPower(Power(w.power.cmdId, w.power.voltage, w.power.current)), w, rest);
    case StateC => n := PublishRuns(bus, MsgState(w.state.executing), w, rest);
    case ThermalC => n := PublishRuns(bus, MsgThermal(w.thermal.motor, w.thermal.battery), w, rest);
    case MotorC => n := MotorRuns(bus, m, w, rest);
    case _ =>
  }

  lemma {:induction false} MotorRuns(bus: Bus, m: Msg, w: World, rest: Todo) returns (n: nat)
    requires Ok(w) && MsgOk(m, w) && Publishing(MotorC, m)
    ensures var (w1, t1) := Begin(MotorC, m, rest, w); Runs(bus, n, w1, t1, Handle(bus, MotorC, m, w), rest)
    decreases Rank(m.Id()), 0, 0
  {
    BeginOk(MotorC, m, rest, w);
    hide Ok, Runs, OnSequence, OnTick;
    var (w1, t1) := Begin(MotorC, m, rest, w);
    if t1.a.Emit? {
      n := EmitLeave(bus, t1.a.m, w1, MotorL, rest);
    } else {
      One(bus, w1, Unlock(MotorL), rest);
      n := 1;
    }
  }

  lemma {:induction false} EnvironmentRuns(bus: Bus, m: Msg, w: World, rest: Todo) returns (n: nat)
    requires Ok(w) && MsgOk(m, w) && Publishing(EnvironmentC, m)
    ensures var (w1, t1) := Begin(EnvironmentC, m, rest, w); Runs(bus, n, w1, t1, Handle(bus, EnvironmentC, m, w), rest)
    decreases Rank(m.Id()), 0, 2
  {
    hide Ok, Runs, Begin, Handle;
    if m.MsgRegion? {
      n := RegionRuns(bus, m.region, w, rest);
    } else {
      n := FindRuns(bus, m.x, m.y, w, rest);
    }
  }

  lemma {:induction false} RegionRuns(bus: Bus, e: Region, w: World, rest: Todo) returns (n: nat)
    requires Ok(w)
    ensures var (w1, t1) := Begin(EnvironmentC, MsgRegion(e), rest, w);
            Runs(bus, n, w1, t1, Handle(bus, EnvironmentC, MsgRegion(e), w), rest)
    decreases Rank(EnvironmentData), 0, 1
  {
    BeginOk(EnvironmentC, MsgRegion(e), rest, w);
    hide Ok, Runs, Store, Frame, Publish;
    n := EmitLeave(bus, MsgRegionAck(e.id), Begin(EnvironmentC, MsgRegion(e), rest, w).0, EnvL, rest);
  }

  lemma {:induction false} FindRuns(bus: Bus, x: real, y: real, w: World, rest: Todo) returns (n: nat)
    requires Ok(w)
    ensures var (w1, t1) := Begin(EnvironmentC, MsgLookup(x, y), rest, w);
            Runs(bus, n, w1, t1, Handle(bus, EnvironmentC, MsgLookup(x, y), w), rest)
    decreases Rank(InternalEnvRequest), 0, 1
  {
    hide Ok, Runs, Lookup, Frame, Publish;
    var hit := Lookup(w.env.cache, x, y);
    if hit.Some? {
      n := EmitLeave(bus, MsgFound(hit.value), w, EnvL, rest);
    } else if w.now - w.env.lastRequest > THROTTLE {
      n := MissRuns(bus, x, y, w, rest);
    } else {
      One(bus, w, Unlock(EnvL), rest);
      n := 1;
    }
  }

  lemma {:induction false} MissRuns(bus: Bus, x: real, y: real, w: World, rest: Todo) returns (n: nat)
    requires Ok(w)
    ensures var w1 := Publish(bus, MsgRegionRequest(x, y), w);
            Runs(bus, n, w, Next(Emit(MsgRegionRequest(x, y)), Next(Stamp(w.now), Leave(EnvL, rest))),
                 w1.(env := w1.env.(lastRequest := w.now)), rest)
    decreases Rank(InternalEnvRequest), 0, 0
  {
    var t := Next(Stamp(w.now), Leave(EnvL, rest));
    var w1 := Publish(bus, MsgRegionRequest(x, y), w);
    var w2 := w1.(env := w1.env.(lastRequest := w.now));
    assert Ok(w2);
    hide Runs, Ok, Frame, Publish;
    n := PublishRuns(bus, MsgRegionRequest(x, y), w, t);
    One(bus, w2, Unlock(EnvL), rest);
    Lead(bus, 1, w1, Stamp(w.now), Leave(EnvL, rest), w2, rest);
    Join(bus, n, 2, w, Next(Emit(MsgRegionRequest(x, y)), t), w1, t, w2, rest);
    n := n + 2;
  }

  lemma {:induction false} AutonomousRuns(bus: Bus, m: Msg, w: World, rest: Todo) returns (n: nat)
    requires Ok(w) && MsgOk(m, w) && Publishing(AutonomousC, m)
    ensures var (w1, t1) := Begin(AutonomousC, m, rest, w); Runs(bus, n, w1, t1, Handle(bus, AutonomousC, m, w), rest)
    decreases Rank(m.Id()), 0, 5
  {
    BeginOk(AutonomousC, m, rest, w);
    hide Ok, Runs, Start, Enter, NodeSequence, OffMap;
    var (w1, t1) := Begin(AutonomousC, m, rest, w);
    if m.MsgTick? {
      n := TickRuns(bus, m.tick, w, rest);
    } else if m.MsgKinematics? {
      n := KinematicsRuns(bus, m.kin, w, rest);
    } else if t1.a.Emit? {
      n := EmitLeave(bus, t1.a.m, w1, AutoL, rest);
    } else {
      One(bus, w1, Unlock(AutoL), rest);
      n := 1;
    }
  }

  lemma {:induction false} TickRuns(bus: Bus, tick: Tick, w: World, rest: Todo) returns (n: nat)
    requires Ok(w)
    ensures var (w1, t1) := Begin(AutonomousC, MsgTick(tick), rest, w); Runs(bus, n, w1, t1, AutoOnTick(bus, w), rest)
    decreases Rank(PhysicsTick), 0, 0
  {
    hide Ok, Runs;
    if w.auto.active {
      var t := Next(Emit(MsgPowerRequest), Leave(AutoL, rest));
      n := PublishRuns(bus, MsgKinematicsRequest, w, t);
      var w1 := Publish(bus, MsgKinematicsRequest, w);
      var n' := EmitLeave(bus, MsgPowerRequest, w1, AutoL, rest);
      Join(bus, n, n', w, Next(Emit(MsgKinematicsRequest), t), w1, t, AutoOnTick(bus, w), rest);
      n := n + n';
    } else {
      One(bus, w, Unlock(AutoL), rest);
      n := 1;
    }
  }

  lemma {:induction false} KinematicsRuns(bus: Bus, k: Kinematics, w: World, rest: Todo) returns (n: nat)
    requires Ok(w)
    ensures var (w1, t1) := Begin(AutonomousC, MsgKinematics(k), rest, w);
            Runs(bus, n, w1, t1, AutoOnKinematics(bus, k, w), rest)
    decreases Rank(KinematicsData), 0, 4
  {
    BeginOk(AutonomousC, MsgKinematics(k), rest, w);
    hide Ok, Runs, OffMap, Frame;
    var x := Metres(k.position);
    if !w.auto.active || w.auto.idx >= w.auto.cmd.numNodes {
      One(bus, w.(auto := At(w.auto, x)), Unlock(AutoL), rest);
      n := 1;
    } else if w.auto.cmd.tuning && OffMap(w.auto, w.env.cache, x) {
      n := LookupRuns(bus, x, w, rest);
    } else {
      n := SampleRuns(bus, x, w, rest);
    }
  }

  lemma {:induction false} LookupRuns(bus: Bus, x: real, w: World, rest: Todo) returns (n: nat)
    requires Ok(w) && w.auto.active
    ensures var w1 := Publish(bus, MsgLookup(x, 0.0), w);
            && w1.auto.active
            && Runs(bus, n, w, Next(Emit(MsgLookup(x, 0.0)), Next(Check(x), Leave(AutoL, rest))),
                    Sample(bus, x, w1), rest)
    decreases Rank(KinematicsData), 0, 3
  {
    hide Ok, Runs;
    var t := Next(Check(x), Leave(AutoL, rest));
    n := PublishRuns(bus, MsgLookup(x, 0.0), w, t);
    var w1 := Publish(bus, MsgLookup(x, 0.0), w);
    var n' := SampleRuns(bus, x, w1, rest);
    Join(bus, n, n', w, Next(Emit(MsgLookup(x, 0.0)), t), w1, t, Sample(bus, x, w1), rest);
    n := n + n';
  }

  lemma {:induction false} SampleRuns(bus: Bus, x: real, w: World, rest: Todo) returns (n: nat)
    requires Ok(w) && w.auto.active
    ensures Runs(bus, n, w, Next(Check(x), Leave(AutoL, rest)), Sample(bus, x, w), rest)
    decreases Rank(KinematicsData), 0, 2
  {
    var r := Leave(AutoL, rest);
    DoOk(bus, Check(x), r, w);
    hide Runs, Ok, Reached;
    var (w1, t1) := CheckNode(x, r, w);
    if !Reached(w.auto.cmd.route[w.auto.idx].x, w.auto.lastPos, x) {
      One(bus, w1, Unlock(AutoL), rest);
      n := 1;
    } else {
      n := NodeRuns(bus, x, w1, rest);
    }
    Lead(bus, n, w, Check(x), r, Sample(bus, x, w), rest);
    n := n + 1;
  }

  lemma {:induction false} NodeRuns(bus: Bus, x: real, w: World, rest: Todo) returns (n: nat)
    requires Ok(w)
    ensures var r := Next(Record(x), Leave(AutoL, rest));
            var w1 := NodeReached(bus, w);
            Runs(bus, n, w, if w.auto.active then Next(Emit(MsgSequence(NodeSequence(w.auto, w.env.cache))), r)
                            else Next(Emit(MsgRouteStatus(w.auto.status)), Next(Emit(MsgSequence(STOP)), r)),
                 w1.(auto := At(w1.auto, x)), rest)
    decreases Rank(KinematicsData), 0, 1
  {
    var r := Next(Record(x), Leave(AutoL, rest));
    var w1 := NodeReached(bus, w);
    var w2 := w1.(auto := At(w1.auto, x));
    AtOk(w1.auto, x);
    assert Ok(w2);
    hide Runs, Ok, NodeSequence;
    One(bus, w2, Unlock(AutoL), rest);
    Lead(bus, 1, w1, Record(x), Leave(AutoL, rest), w2, rest);
    if w.auto.active {
      var m := MsgSequence(NodeSequence(w.auto, w.env.cache));
      n := PublishRuns(bus, m, w, r);
      Join(bus, n, 2, w, Next(Emit(m), r), w1, r, w2, rest);
      n := n + 2;
    } else {
      n := StopRuns(bus, w, r);
      Join(bus, n, 2, w, Next(Emit(MsgRouteStatus(w.auto.status)), Next(Emit(MsgSequence(STOP)), r)), w1, r, w2, rest);
      n := n + 2;
    }
  }

  lemma {:induction false} StopRuns(bus: Bus, w: World, r: Todo) returns (n: nat)
    requires Ok(w) && !w.auto.active
    ensures Runs(bus, n, w, Next(Emit(MsgRouteStatus(w.auto.status)), Next(Emit(MsgSequence(STOP)), r)),
            NodeReached(bus, w), r)
    decreases Rank(KinematicsData), 0, 0
  {
    hide Runs, Ok;
    var report := MsgRouteStatus(w.auto.status);
    var w1 := Publish(bus, report, w);
    n := PublishRuns(bus, report, w, Next(Emit(MsgSequence(STOP)), r));
    var n' := PublishRuns(bus, MsgSequence(STOP), w1, r);
    Join(bus, n, n', w, Next(Emit(report), Next(Emit(MsgSequence(STOP)), r)), w1, Next(Emit(MsgSequence(STOP)), r),
      NodeReached(bus, w), r);
    n := n + n';
  }

  // ---- the undisturbed dispatch is a run of the system ---------------------------------------------

  /** `s` with the services and the todo of thread `i` replaced. */
  function With(s: Sys, i: nat, w: World, t: Todo): Sys
    requires i < |s.threads|
  {
    Sys(w, s.threads[i := t])
  }

  /** Nobody else is inside a critical section. */
  predicate OthersOutside(s: Sys, i: nat) {
    forall j | 0 <= j < |s.threads| && j != i :: Locks(s.threads[j]) == {}
  }

  lemma AloneIsEnabled(s: Sys, i: nat)
    requires i < |s.threads| && OthersOutside(s, i) && s.threads[i].Next? && Ordered(s.threads[i])
    ensures Enabled(s, i)
  {
    var t := s.threads[i];
    if Wants(t.a).Some? {
      AllowedClimbs(t.a, t.rest);
    }
  }

  /** The invariants of one undisturbed thread. */
  predicate Fine(s: Sys, lo: real, hi: real) {
    Safe(s, lo, hi) && Coherent(s)
  }

  /** Action by action, the undisturbed thread is a sequence of steps of the system. */
  lemma {:induction false} RunsAreSteps(bus: Bus, n: nat, s: Sys, i: nat, w': World, t': Todo, lo: real, hi: real)
    returns (states: seq<Sys>, moves: seq<Move>)
    requires Wired(bus) && i < |s.threads| && OthersOutside(s, i) && Fine(s, lo, hi)
    requires Runs(bus, n, s.w, s.threads[i], w', t')
    ensures Run(bus, states, moves) && states[0] == s && states[|states| - 1] == With(s, i, w', t')
    ensures Fine(With(s, i, w', t'), lo, hi) && forall k | 0 <= k < |moves| :: moves[k] == Take(i)
    decreases n
  {
    if n == 0 {
      assert With(s, i, w', t') == s;
      states, moves := [s], [];
    } else {
      hide Safe, Coherent, Do, Ok, Fits;
      assert Ordered(s.threads[i]) by { SafeOrders(s, i, lo, hi); }
      AloneIsEnabled(s, i);
      SafeIsSane(s, lo, hi);
      TakeKeepsSafe(bus, s, i, lo, hi);
      FineStep(bus, s, i, lo, hi);
      var s1 := Taken(bus, s, i);
      var rest, more := RunsAreSteps(bus, n - 1, s1, i, w', t', lo, hi);
      assert With(s1, i, w', t') == With(s, i, w', t');
      states, moves := [s] + rest, [Take(i)] + more;
      RunCons(bus, s, Take(i), rest, more);
    }
  }

  lemma SafeOrders(s: Sys, i: nat, lo: real, hi: real)
    requires Safe(s, lo, hi) && i < |s.threads|
    ensures Ordered(s.threads[i])
  {
  }

  lemma FineStep(bus: Bus, s: Sys, i: nat, lo: real, hi: real)
    requires Wired(bus) && Fine(s, lo, hi) && i < |s.threads| && Enabled(s, i) && Sane(s)
    ensures Ok(Taken(bus, s, i).w) && Coherent(Taken(bus, s, i))
  {
    hide Coherent, Sane, Enabled, AllOrdered, Ok, Wired;
    TakeKeepsCoherent(bus, s, i);
  }

  lemma RunCons(bus: Bus, s: Sys, mv: Move, states: seq<Sys>, moves: seq<Move>)
    requires Run(bus, states, moves) && Step(bus, s, mv, states[0])
    ensures Run(bus, [s] + states, [mv] + moves)
  {
    hide Step;
    var all, mvs := [s] + states, [mv] + moves;
    forall k | 0 <= k < |mvs| ensures Step(bus, all[k], mvs[k], all[k + 1]) {
      if k > 0 {
        assert Step(bus, states[k - 1], moves[k - 1], states[k]);
      }
    }
  }

  lemma RunJoin(bus: Bus, states: seq<Sys>, moves: seq<Move>, more: seq<Sys>, mvs: seq<Move>)
    requires Run(bus, states, moves) && Run(bus, more, mvs) && states[|states| - 1] == more[0]
    ensures Run(bus, states + more[1..], moves + mvs)
  {
    hide Step;
    var all, allMoves := states + more[1..], moves + mvs;
    forall k | 0 <= k < |allMoves| ensures Step(bus, all[k], allMoves[k], all[k + 1]) {
      if k < |moves| {
        assert Step(bus, states[k], moves[k], states[k + 1]);
      } else {
        assert Step(bus, more[k - |moves|], mvs[k - |moves|], more[k - |moves| + 1]);
      }
    }
  }

  /** The services between two dispatches. */
  predicate Rest(w: World, lo: real, hi: real) {
    GoodWorld(w, lo, hi) && w.state == CacheStatus(Current(w.motor))
  }

  lemma FreshRests(now: int, supply: (real, real), lo: real, hi: real)
    requires lo <= 20.0 <= hi
    ensures Rest(Fresh(now, supply), lo, hi)
  {
    FreshOk(now, supply);
  }

  /** What an entry amounts to when nothing disturbs it: the clock reads the cache and publishes the tick at once. */
  function Served(bus: Bus, a: Act, w: World): World
    requires Entry(a) && Ok(w)
  {
    Publish(bus, Message(a, w), w)
  }

  function Message(a: Act, w: World): Msg
    requires Entry(a)
  {
    if a.Snap? then MsgTick(Snapshot(w.state)) else a.m
  }

  lemma ServedRuns(bus: Bus, a: Act, w: World) returns (n: nat)
    requires Entry(a) && Ok(w)
    ensures Runs(bus, n, w, Next(a, Nil), Served(bus, a, w), Nil)
  {
    n := PublishRuns(bus, Message(a, w), w, Nil);
    hide Runs, Ok;
    if a.Snap? {
      Lead(bus, n, w, a, Nil, Served(bus, a, w), Nil);
      n := n + 1;
    }
  }

  /**
    From idle threads, an entry whose thread goes on undisturbed is a run of the system, and it ends idle in
    the state that Publish computes; so every such state satisfies what all runs satisfy.
   */
  lemma UndisturbedRunIsPublish(bus: Bus, a: Act, s: Sys, i: nat, lo: real, hi: real)
    returns (states: seq<Sys>, moves: seq<Move>)
    requires Wired(bus) && Idle(s) && i < |s.threads| && Rest(s.w, lo, hi)
    requires Entry(a) && Mild(Submit(i, a), lo, hi)
    ensures Run(bus, states, moves) && states[0] == s && states[|states| - 1] == s.(w := Served(bus, a, s.w))
    ensures Rest(Served(bus, a, s.w), lo, hi)
  {
    var n := ServedRuns(bus, a, s.w);
    var s0 := With(s, i, s.w, Next(a, Nil));
    SubmittedIsFine(s, i, a, lo, hi);
    var w' := Served(bus, a, s.w);
    hide Served, Entry, Rest;
    var rest, more := RunsAreSteps(bus, n, s0, i, w', Nil, lo, hi);
    assert With(s0, i, w', Nil) == s.(w := w');
    states, moves := [s] + rest, [Submit(i, a)] + more;
    RunCons(bus, s, Submit(i, a), rest, more);
    IdleIsAtRest(s.(w := w'), lo, hi);
  }

  lemma SubmittedIsFine(s: Sys, i: nat, a: Act, lo: real, hi: real)
    requires Idle(s) && i < |s.threads| && Rest(s.w, lo, hi)
    requires Entry(a) && Mild(Submit(i, a), lo, hi)
    ensures Sane(s) && Fine(With(s, i, s.w, Next(a, Nil)), lo, hi)
  {
    hide Ok, Temperate, Current;
    EntryIsFine(a, |s.w.env.cache|, lo, hi);
  }

  lemma EntryIsFine(a: Act, n: nat, lo: real, hi: real)
    requires Entry(a) && Mild(Submit(0, a), lo, hi)
    ensures var t := Next(a, Nil); Locks(t) == {} && Ordered(t) && AllGood(t, n, lo, hi) && !Checking(t)
  {
    var nothing := Nil;
    assert Locks(nothing) == {} && Ordered(nothing) && AllGood(nothing, n, lo, hi) && !Checking(nothing);
  }

  lemma IdleIsAtRest(s: Sys, lo: real, hi: real)
    requires Idle(s) && Fine(s, lo, hi)
    ensures Rest(s.w, lo, hi)
  {
    hide Ok, Temperate, Current;
  }
}
