/** Lock order over every interleaving of the threads, and from it: the threads never deadlock. */
module ThreadOrder {
  import opened Wrappers
  import opened Messages
  import opened Motor
  import opened Physics
  import opened Environment
  import opened Route
  import opened Mesh
  import opened Threads

  /** What a thread may hold while it publishes or handles a message. */
  predicate May(id: MsgId, held: set<Lock>) {
    match id
    case MotorStatus => MotorL in held && held <= {AutoL, EnvL, MotorL}
    case MotorSequence => held <= {AutoL, EnvL}
    case EnvironmentAck => held <= {AutoL, EnvL}
    case EnvironmentRequest => held <= {AutoL, EnvL}
    case InternalEnvRequest => held == {AutoL}
    case InternalEnvData => held == {AutoL, EnvL}
    case AutoDriveStatus => held == {AutoL}
    case KinematicsRequest => held <= {AutoL}
    case KinematicsData => held <= {AutoL}
    case PowerRequest => held <= {AutoL}
    case PowerData => held <= {AutoL}
    case _ => held == {}
  }

  /** Messages that AutonomousService does not expect in the middle of a node check. */
  predicate OutsideCheck(id: MsgId) {
    id in {KinematicsRequest, KinematicsData, PowerRequest, PowerData}
  }

  predicate Checking(t: Todo) {
    t.Next? && (t.a.Check? || Checking(t.rest))
  }

  predicate Allowed(a: Act, rest: Todo) {
    var held := Locks(rest);
    match a
    case Emit(m) => May(m.Id(), held) && (OutsideCheck(m.Id()) ==> !Checking(rest))
    case Call(c, m) => m.Id() in Subscribes(c) && May(m.Id(), held) && (OutsideCheck(m.Id()) ==> !Checking(rest))
    case Unlock(l) => l in held ==> Recursive(l)
    case Stamp(_) => EnvL in held
    case Check(_) => held == {AutoL} && !Checking(rest)
    case Record(_) => held == {AutoL}
    case Snap => held == {}
    case Say => LogL !in held
  }

  predicate Ordered(t: Todo) {
    t.Next? ==> Allowed(t.a, t.rest) && Ordered(t.rest)
  }

  /** An action re-enters a recursive lock its thread already holds, or takes a lock above all it holds. */
  predicate Climbs(l: Lock, held: set<Lock>) {
    if l in held then Recursive(l) else forall h | h in held :: Level(h) < Level(l)
  }

  lemma AllowedClimbs(a: Act, rest: Todo)
    requires Allowed(a, rest) && Wants(a).Some?
    ensures Climbs(Wants(a).value, Locks(rest))
  {
    hide Locks, Checking;
  }

  /** A check in progress is protected by the lock of AutonomousService. */
  lemma {:induction false} CheckingHolds(t: Todo)
    requires Ordered(t) && Checking(t)
    ensures AutoL in Locks(t)
  {
    if !t.a.Check? {
      CheckingHolds(t.rest);
    }
  }

  // ---- every step keeps the order ------------------------------------------------------------------

  predicate AllSubscribed(hs: seq<Component>, id: MsgId) {
    forall i | 0 <= i < |hs| :: id in Subscribes(hs[i])
  }

  lemma HandlersSubscribed(bus: Bus, id: MsgId)
    requires Wired(bus)
    ensures AllSubscribed(HandlersOf(bus, id), id)
  {
    var hs := HandlersOf(bus, id);
    forall i | 0 <= i < |hs| ensures id in Subscribes(hs[i]) {
      assert Once(hs, hs[i], id in Subscribes(hs[i]));
    }
  }

  lemma {:induction false} CallsOrdered(hs: seq<Component>, m: Msg, rest: Todo)
    requires AllSubscribed(hs, m.Id()) && Ordered(rest)
    requires May(m.Id(), Locks(rest)) && (OutsideCheck(m.Id()) ==> !Checking(rest))
    ensures Ordered(Calls(hs, m, rest)) && Locks(Calls(hs, m, rest)) == Locks(rest)
    ensures Checking(Calls(hs, m, rest)) == Checking(rest)
    decreases |hs|
  {
    hide May, Subscribes, OutsideCheck;
    if hs != [] {
      CallsOrdered(hs[..|hs| - 1], m, Next(Call(hs[|hs| - 1], m), rest));
    }
  }

  lemma DoOrdered(bus: Bus, a: Act, rest: Todo, w: World)
    requires Ok(w) && Fits(a, w) && Wired(bus) && Allowed(a, rest) && Ordered(rest)
    ensures Ordered(Do(bus, a, rest, w).1)
  {
    match a
    case Emit(m) =>
      HandlersSubscribed(bus, m.Id());
      CallsOrdered(HandlersOf(bus, m.Id()), m, rest);
    case Call(c, m) => BeginOrdered(c, m, rest, w);
    case Check(x) => CheckOrdered(x, rest, w);
    case _ =>
  }

  lemma CheckOrdered(x: real, rest: Todo, w: World)
    requires Ok(w) && w.auto.active && Allowed(Check(x), rest) && Ordered(rest)
    ensures Ordered(CheckNode(x, rest, w).1)
  {
    hide Ok, Reached, NodeSequence;
    var r := Next(Record(x), rest);
    assert Ordered(r) && Locks(r) == {AutoL};
    assert Ordered(Next(Emit(MsgSequence(STOP)), r)) && Locks(Next(Emit(MsgSequence(STOP)), r)) == {AutoL};
  }

  lemma LeaveOrdered(l: Lock, rest: Todo)
    requires Climbs(l, Locks(rest)) && Ordered(rest)
    ensures Ordered(Leave(l, rest)) && Locks(Leave(l, rest)) == Locks(rest) + {l}
    ensures Checking(Leave(l, rest)) == Checking(rest)
  {
  }

  lemma BeginOrdered(c: Component, m: Msg, rest: Todo, w: World)
    requires Ok(w) && MsgOk(m, w) && Allowed(Call(c, m), rest) && Ordered(rest)
    ensures Ordered(Begin(c, m, rest, w).1)
  {
    AllowedClimbs(Call(c, m), rest);
    LeaveOrdered(LockOf(c), rest);
    hide Begin, Ok, Climbs, Locks, Leave;
    if c == AutonomousC {
      AutonomousOrdered(m, rest, w);
    } else if c == EnvironmentC {
      EnvironmentOrdered(m, rest, w);
    } else {
      OtherOrdered(c, m, rest, w);
    }
  }

  lemma OtherOrdered(c: Component, m: Msg, rest: Todo, w: World)
    requires c != AutonomousC && c != EnvironmentC
    requires Ok(w) && MsgOk(m, w) && Allowed(Call(c, m), rest) && Ordered(rest)
    requires var r := Leave(LockOf(c), rest); Ordered(r) && Locks(r) == Locks(rest) + {LockOf(c)}
    ensures Ordered(Begin(c, m, rest, w).1)
  {
    hide Ok, OnSequence, OnTick, Quiet, Locks, Leave;
  }

  lemma EnvironmentOrdered(m: Msg, rest: Todo, w: World)
    requires Ok(w) && MsgOk(m, w) && Allowed(Call(EnvironmentC, m), rest) && Ordered(rest)
    requires var r := Leave(EnvL, rest); Ordered(r) && Locks(r) == Locks(rest) + {EnvL}
    ensures Ordered(Begin(EnvironmentC, m, rest, w).1)
  {
    var r := Leave(EnvL, rest);
    hide Ok, Lookup, Store, Quiet, Leave;
    if m.MsgLookup? {
      LookupOrdered(m, r);
      hide Allowed, Ordered, Locks;
    }
  }

  lemma LookupOrdered(m: Msg, r: Todo)
    requires m.MsgLookup? && Ordered(r) && Locks(r) == {AutoL} + {EnvL}
    ensures forall entry :: Ordered(Next(Emit(MsgFound(entry)), r))
    ensures forall at :: Ordered(Next(Emit(MsgRegionRequest(m.x, m.y)), Next(Stamp(at), r)))
  {
    assert Locks(r) == {AutoL, EnvL};
    forall at ensures Ordered(Next(Emit(MsgRegionRequest(m.x, m.y)), Next(Stamp(at), r))) {
      assert Ordered(Next(Stamp(at), r));
    }
  }

  lemma AutonomousOrdered(m: Msg, rest: Todo, w: World)
    requires Ok(w) && MsgOk(m, w) && Allowed(Call(AutonomousC, m), rest) && Ordered(rest)
    requires var r := Leave(AutoL, rest);
             Ordered(r) && Locks(r) == Locks(rest) + {AutoL} && Checking(r) == Checking(rest)
    ensures Ordered(Begin(AutonomousC, m, rest, w).1)
  {
    hide Begin, Ok, Leave, Ordered, Locks, Checking, Metres;
    if m.MsgTick? {
      CheckingHoldsNot(rest);
      AutoTickOrdered(m, rest, w);
    } else if m.MsgKinematics? {
      SampleOrdered(Metres(m.kin.position), Leave(AutoL, rest));
      KinematicsOrdered(m, rest, w);
    } else {
      DriveOrdered(m, rest, w);
    }
  }

  lemma AutoTickOrdered(m: Msg, rest: Todo, w: World)
    requires Ok(w) && m.MsgTick? && Allowed(Call(AutonomousC, m), rest) && !Checking(rest)
    requires var r := Leave(AutoL, rest);
             Ordered(r) && Locks(r) == Locks(rest) + {AutoL} && Checking(r) == Checking(rest)
    ensures Ordered(Begin(AutonomousC, m, rest, w).1)
  {
    var r := Leave(AutoL, rest);
    hide Ok, Leave;
    var p := Next(Emit(MsgPowerRequest), r);
    assert Ordered(p) && Locks(p) == Locks(r) && !Checking(p);
  }

  lemma SampleOrdered(x: real, r: Todo)
    requires Ordered(r) && Locks(r) == {AutoL} && !Checking(r)
    ensures var q := Next(Check(x), r); Ordered(q) && Ordered(Next(Emit(MsgLookup(x, 0.0)), q))
  {
    var q := Next(Check(x), r);
    assert Ordered(q) && Locks(q) == {AutoL};
  }

  lemma KinematicsOrdered(m: Msg, rest: Todo, w: World)
    requires Ok(w) && m.MsgKinematics? && Ordered(Leave(AutoL, rest))
    requires var q := Next(Check(Metres(m.kin.position)), Leave(AutoL, rest));
             Ordered(q) && Ordered(Next(Emit(MsgLookup(Metres(m.kin.position), 0.0)), q))
    ensures Ordered(Begin(AutonomousC, m, rest, w).1)
  {
    hide Ok, OffMap, Metres, Leave, Ordered;
  }

  lemma DriveOrdered(m: Msg, rest: Todo, w: World)
    requires Ok(w) && MsgOk(m, w) && !m.MsgTick? && !m.MsgKinematics? && Allowed(Call(AutonomousC, m), rest)
    requires Ordered(Leave(AutoL, rest)) && Locks(Leave(AutoL, rest)) == Locks(rest) + {AutoL}
    ensures Ordered(Begin(AutonomousC, m, rest, w).1)
  {
    hide Ok, NodeSequence, Start, Enter, Quiet, Leave, Locks;
  }

  lemma CheckingHoldsNot(t: Todo)
    requires Ordered(t) && Locks(t) == {}
    ensures !Checking(t)
  {
    if Checking(t) {
      CheckingHolds(t);
    }
  }

  // ---- the invariant and its consequence -----------------------------------------------------------

  predicate Exclusive(s: Sys) {
    forall i, j | 0 <= i < |s.threads| && 0 <= j < |s.threads| && i != j :: Locks(s.threads[i]) !! Locks(s.threads[j])
  }

  predicate AllOrdered(s: Sys) {
    && Exclusive(s)
    && forall i | 0 <= i < |s.threads| :: Ordered(s.threads[i])
  }

  lemma NotEnabled(s: Sys, i: nat) returns (j: nat)
    requires AllOrdered(s) && i < |s.threads| && s.threads[i].Next? && !Enabled(s, i)
    ensures j < |s.threads| && j != i && Wants(s.threads[i].a).Some?
            && Wants(s.threads[i].a).value in Locks(s.threads[j])
  {
    AllowedClimbs(s.threads[i].a, s.threads[i].rest);
    hide Ordered, Locks;
    var l := Wants(s.threads[i].a).value;
    j :| 0 <= j < |s.threads| && j != i && l in Locks(s.threads[j]);
  }

  /** A thread that holds a lock and is blocked waits for a lock of a higher level. */
  lemma BlockedClimbs(s: Sys, j: nat, l: Lock)
    requires AllOrdered(s) && j < |s.threads| && l in Locks(s.threads[j]) && !Enabled(s, j)
    ensures s.threads[j].Next? && Wants(s.threads[j].a).Some? && Level(Wants(s.threads[j].a).value) > Level(l)
  {
    var t := s.threads[j];
    var k := NotEnabled(s, j);
    AllowedClimbs(t.a, t.rest);
    assert l in Locks(t.rest);
    assert Wants(t.a).value !in Locks(t);
  }

  /** Thread `i` waits for a lock that thread `j` holds. */
  predicate WaitsFor(s: Sys, i: nat, j: nat) {
    && i < |s.threads| && j < |s.threads| && i != j && s.threads[i].Next?
    && Wants(s.threads[i].a).Some? && Wants(s.threads[i].a).value in Locks(s.threads[j])
  }

  /** Every thread of the path waits for the next one. */
  predicate WaitPath(s: Sys, path: seq<nat>) {
    && path != [] && (forall k | 0 <= k < |path| :: path[k] < |s.threads|)
    && forall k | 0 < k < |path| :: WaitsFor(s, path[k - 1], path[k])
  }

  /**
    In every state that keeps the order, whoever a thread waits for, directly or through others, is in the end
    a thread that can go on.
   */
  lemma {:induction false} WaitsEnd(s: Sys, i: nat) returns (path: seq<nat>)
    requires AllOrdered(s) && i < |s.threads| && s.threads[i].Next?
    ensures WaitPath(s, path) && path[0] == i && Enabled(s, path[|path| - 1])
    decreases if Wants(s.threads[i].a).Some? then 5 - Level(Wants(s.threads[i].a).value) else 6
  {
    hide AllOrdered, Locks, Enabled;
    if Enabled(s, i) {
      path := [i];
    } else {
      var k := NotEnabled(s, i);
      if Enabled(s, k) {
        path := [i, k];
      } else {
        BlockedClimbs(s, k, Wants(s.threads[i].a).value);
        var rest := WaitsEnd(s, k);
        path := [i] + rest;
      }
    }
  }

  lemma {:induction false} CallsLocks(hs: seq<Component>, m: Msg, rest: Todo)
    ensures Locks(Calls(hs, m, rest)) == Locks(rest)
    decreases |hs|
  {
    if hs != [] {
      CallsLocks(hs[..|hs| - 1], m, Next(Call(hs[|hs| - 1], m), rest));
    }
  }

  /** An action adds no lock but the one it wants. */
  lemma DoLocks(bus: Bus, a: Act, rest: Todo, w: World)
    requires Ok(w) && Fits(a, w)
    ensures Locks(Do(bus, a, rest, w).1) <= Locks(rest) + if Wants(a).Some? then {Wants(a).value} else {}
  {
    match a
    case Emit(m) => CallsLocks(HandlersOf(bus, m.Id()), m, rest);
    case Call(c, m) => BeginLocks(c, m, rest, w);
    case Check(x) => CheckLocks(x, rest, w);
    case _ =>
  }

  lemma CheckLocks(x: real, rest: Todo, w: World)
    requires Ok(w) && w.auto.active
    ensures Locks(CheckNode(x, rest, w).1) == Locks(rest)
  {
    hide Ok, Reached, NodeSequence;
    assert Locks(Next(Emit(MsgSequence(STOP)), Next(Record(x), rest))) == Locks(rest);
  }

  lemma BeginLocks(c: Component, m: Msg, rest: Todo, w: World)
    requires Ok(w) && MsgOk(m, w)
    ensures Locks(Begin(c, m, rest, w).1) <= Locks(rest) + {LockOf(c)}
  {
    var r := Leave(LockOf(c), rest);
    assert Locks(r) == Locks(rest) + {LockOf(c)};
    hide Ok, OnSequence, OnTick, Lookup, Store, NodeSequence, Start, Enter, OffMap, Metres, Quiet;
    assert forall p, q :: Locks(Next(Emit(p), Next(Emit(q), r))) == Locks(r);
    assert forall p, at :: Locks(Next(Emit(p), Next(Stamp(at), r))) == Locks(r);
    assert forall p, x :: Locks(Next(Emit(p), Next(Check(x), r))) == Locks(r);
  }

  lemma TakeKeepsOrder(bus: Bus, s: Sys, i: nat)
    requires Wired(bus) && AllOrdered(s) && i < |s.threads| && Enabled(s, i)
    requires Ok(s.w) && Fits(s.threads[i].a, s.w)
    ensures AllOrdered(Taken(bus, s, i))
  {
    var t := s.threads[i];
    DoOrdered(bus, t.a, t.rest, s.w);
    DoLocks(bus, t.a, t.rest, s.w);
    hide Ok, Fits, Do, Ordered, Allowed;
  }

  lemma StepKeepsOrder(bus: Bus, s: Sys, mv: Move, s': Sys)
    requires Wired(bus) && AllOrdered(s) && Step(bus, s, mv, s')
    ensures AllOrdered(s')
  {
    if mv.Take? {
      TakeKeepsOrder(bus, s, mv.i);
    } else if mv.Submit? {
      hide Sane;
      assert Ordered(Next(mv.a, Nil));
    } else if mv.Speak? {
      hide Sane;
      assert Locks(Next(Say, s.threads[mv.i])) == Locks(s.threads[mv.i]);
    }
  }

  /** However the threads interleave, every lock acquisition climbs, and no state of the run is a deadlock. */
  lemma {:induction false} RunsKeepOrder(bus: Bus, states: seq<Sys>, moves: seq<Move>, k: nat)
    requires Wired(bus) && Run(bus, states, moves) && Idle(states[0]) && k < |states|
    ensures AllOrdered(states[k])
  {
    if k > 0 {
      RunsKeepOrder(bus, states, moves, k - 1);
      assert Step(bus, states[k - 1], moves[k - 1], states[k]);
      StepKeepsOrder(bus, states[k - 1], moves[k - 1], states[k]);
    }
  }
}
