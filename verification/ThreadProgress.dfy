/** Every dispatch ends: a measure on the threads that every action decreases. */
module ThreadProgress {
  import opened Bytes
  import opened Wrappers
  import opened Messages
  import opened Motor
  import opened Physics
  import opened Environment
  import opened Route
  import opened Mesh
  import opened Threads
  import opened ThreadOrder
  import opened ThreadSafety
  import opened ThreadAlone

  /** Nobody subscribes twice, so no message has more than nine handlers. */
  const MOST_HANDLERS := 9

  // ---- what remains to be done -----------------------------------------------------------------------

  /** Actions that publishing a message can lead to, when one handler of it leads to `call`. */
  function Publication(call: nat): nat { 1 + MOST_HANDLERS * call }

  /** Nothing published: the handler and its unlock. */
  const QUIET := 2
  const LEAF := Publication(QUIET)

  const SEQUENCE_CALL := LEAF + 2
  const FOUND_CALL := Publication(SEQUENCE_CALL) + 2
  const LOOKUP_CALL := Publication(FOUND_CALL) + LEAF + 3
  const CHECK := LEAF + Publication(SEQUENCE_CALL) + 2
  const DATA_CALL := Publication(LOOKUP_CALL) + CHECK + 2
  const REQUEST_CALL := Publication(DATA_CALL) + LEAF + 2
  const TICK_CALL := Publication(REQUEST_CALL) + Publication(REQUEST_CALL) + 2

  /** Actions that one handler of a message can lead to, itself included. */
  function CallWeight(id: MsgId): nat {
    match id
    case PhysicsTick => TICK_CALL
    case KinematicsRequest => REQUEST_CALL
    case PowerRequest => REQUEST_CALL
    case StateRequest => REQUEST_CALL
    case ThermalRequest => REQUEST_CALL
    case EnvironmentData => REQUEST_CALL
    case KinematicsData => DATA_CALL
    case InternalEnvRequest => LOOKUP_CALL
    case InternalEnvData => FOUND_CALL
    case AutoDriveCommand => FOUND_CALL
    case MotorSequence => SEQUENCE_CALL
    case _ => QUIET
  }

  function Weight(a: Act): nat {
    match a
    case Emit(m) => Publication(CallWeight(m.Id()))
    case Call(_, m) => CallWeight(m.Id())
    case Check(_) => CHECK
    case Snap => Publication(TICK_CALL) + 1
    case Say => 2
    case _ => 1
  }

  function Load(t: Todo): nat {
    if t == Nil then 0 else Weight(t.a) + Load(t.rest)
  }

  function Work(threads: seq<Todo>): nat {
    if threads == [] then 0 else Work(threads[..|threads| - 1]) + Load(threads[|threads| - 1])
  }

  // ---- one action ------------------------------------------------------------------------------------

  const EVERYONE := {MotorC, KinematicsC, PowerC, StateC, ThermalC, EnvironmentC, AutonomousC, LogC, BridgeC}

  lemma {:induction false} OnceEach(hs: seq<Component>, s: set<Component>)
    requires forall c: Component :: multiset(hs)[c] <= if c in s then 1 else 0
    ensures |hs| <= |s|
    decreases |hs|
  {
    if hs != [] {
      var last := hs[|hs| - 1];
      assert hs == hs[..|hs| - 1] + [last];
      assert multiset(hs) == multiset(hs[..|hs| - 1]) + multiset{last};
      OnceEach(hs[..|hs| - 1], s - {last});
    }
  }

  lemma AtMostNine(bus: Bus, id: MsgId)
    requires Wired(bus)
    ensures |HandlersOf(bus, id)| <= MOST_HANDLERS
  {
    var hs := HandlersOf(bus, id);
    forall c: Component ensures multiset(hs)[c] <= if c in EVERYONE then 1 else 0 {
      assert Once(hs, c, id in Subscribes(c));
    }
    hide Wired, Once, Subscribes, HandlersOf;
    OnceEach(hs, EVERYONE);
  }

  lemma {:induction false} CallsLoad(hs: seq<Component>, m: Msg, rest: Todo)
    ensures Load(Calls(hs, m, rest)) == Times(|hs|, CallWeight(m.Id())) + Load(rest)
    decreases |hs|
  {
    hide CallWeight, Msg.Id;
    if hs != [] {
      var call := Call(hs[|hs| - 1], m);
      Pushed(call, rest);
      CallsLoad(hs[..|hs| - 1], m, Next(call, rest));
      hide Load;
    }
  }

  lemma EmitLoad(bus: Bus, m: Msg, rest: Todo)
    requires Wired(bus)
    ensures Load(Calls(HandlersOf(bus, m.Id()), m, rest)) < Weight(Emit(m)) + Load(rest)
  {
    var hs := HandlersOf(bus, m.Id());
    AtMostNine(bus, m.Id());
    CallsLoad(hs, m, rest);
    Bounded(|hs|, MOST_HANDLERS, CallWeight(m.Id()));
    hide CallWeight, Wired, Load, Times;
  }

  lemma Bounded(n: nat, most: nat, c: nat)
    requires n <= most
    ensures Times(n, c) <= most * c
  {
    IsProduct(n, c);
  }

  lemma {:induction false} IsProduct(n: nat, c: nat)
    ensures Times(n, c) == n * c
  {
    if n > 0 {
      IsProduct(n - 1, c);
      assert (n - 1) * c + c == n * c;
    }
  }

  lemma Pushed(a: Act, t: Todo)
    ensures Load(Next(a, t)) == Weight(a) + Load(t)
  {
  }

  lemma CheckLoad(x: real, rest: Todo, w: World)
    requires Ok(w) && w.auto.active
    ensures Load(CheckNode(x, rest, w).1) < Weight(Check(x)) + Load(rest)
  {
    hide Ok, Reached, NodeSequence, Load;
    var record := Next(Record(x), rest);
    Pushed(Record(x), rest);
    Pushed(Emit(MsgSequence(STOP)), record);
    var t := CheckNode(x, rest, w).1;
    if t.Next? {
      Pushed(t.a, t.rest);
    }
  }

  lemma MotorLoad(m: Msg, rest: Todo, w: World)
    requires Ok(w) && MsgOk(m, w) && m.Id() in Subscribes(MotorC)
    ensures Load(Begin(MotorC, m, rest, w).1) < Weight(Call(MotorC, m)) + Load(rest)
  {
    hide Ok, OnSequence, OnTick, Quiet, Frame, Load;
    Pushed(Unlock(MotorL), rest);
    var t := Begin(MotorC, m, rest, w).1;
    Pushed(t.a, t.rest);
  }

  /** A request is answered without a lock; everything else is quiet. */
  lemma OtherLoad(c: Component, m: Msg, rest: Todo, w: World)
    requires Ok(w) && MsgOk(m, w) && m.Id() in Subscribes(c) && c !in {MotorC, EnvironmentC, AutonomousC}
    ensures Load(Begin(c, m, rest, w).1) < Weight(Call(c, m)) + Load(rest)
  {
    AnswersLess(c, m, rest, w);
    hide Ok, Quiet, Frame, Load, Begin, Weight, Subscribes, Msg.Id;
    var t := Begin(c, m, rest, w).1;
    Pushed(t.a, t.rest);
  }

  lemma AnswersLess(c: Component, m: Msg, rest: Todo, w: World)
    requires Ok(w) && MsgOk(m, w) && m.Id() in Subscribes(c) && c !in {MotorC, EnvironmentC, AutonomousC}
    ensures var t := Begin(c, m, rest, w).1; t.Next? && t.rest == rest && Weight(t.a) < Weight(Call(c, m))
  {
    hide Ok, Quiet, Frame, Load, Subscribes, CallWeight;
    AtLeastQuiet(m.Id());
    RequestsWeigh();
  }

  lemma AtLeastQuiet(id: MsgId)
    ensures CallWeight(id) >= QUIET
  {
  }

  lemma RequestsWeigh()
    ensures forall id | id in [KinematicsRequest, PowerRequest, StateRequest, ThermalRequest] ::
              CallWeight(id) == REQUEST_CALL
    ensures Publication(CallWeight(KinematicsData)) < REQUEST_CALL
    ensures forall id | id in [PowerData, StateData, ThermalData] :: Publication(CallWeight(id)) < REQUEST_CALL
  {
  }

  lemma EnvironmentLoad(m: Msg, rest: Todo, w: World)
    requires Ok(w) && MsgOk(m, w) && m.Id() in Subscribes(EnvironmentC)
    ensures Load(Begin(EnvironmentC, m, rest, w).1) < Weight(Call(EnvironmentC, m)) + Load(rest)
  {
    hide Ok, Lookup, Store, Quiet, Frame, Load;
    var r := Leave(EnvL, rest);
    Pushed(Unlock(EnvL), rest);
    Pushed(Stamp(w.now), r);
    var t := Begin(EnvironmentC, m, rest, w).1;
    if t.Next? {
      Pushed(t.a, t.rest);
    }
  }

  lemma DriveLoad(rest: Todo, w: World)
    requires Ok(w)
    ensures Load(Drive(w, rest).1) < FOUND_CALL + Load(rest)
  {
    hide Ok, NodeSequence, Load;
    Pushed(Unlock(AutoL), rest);
    var t := Drive(w, rest).1;
    Pushed(t.a, t.rest);
  }

  lemma KinematicsLoad(x: real, rest: Todo, w: World)
    requires Ok(w)
    ensures Load(OnKinematics(x, rest, w).1) < DATA_CALL + Load(rest)
  {
    hide Ok, OffMap, Load;
    var r := Leave(AutoL, rest);
    Pushed(Unlock(AutoL), rest);
    Pushed(Check(x), r);
    Pushed(Emit(MsgLookup(x, 0.0)), Next(Check(x), r));
  }

  lemma AutonomousLoad(m: Msg, rest: Todo, w: World)
    requires Ok(w) && MsgOk(m, w) && m.Id() in Subscribes(AutonomousC)
    ensures Load(Begin(AutonomousC, m, rest, w).1) < Weight(Call(AutonomousC, m)) + Load(rest)
  {
    hide Ok, Drive, OnKinematics, Start, Enter, Metres, Quiet, Frame, Load, Publication;
    match m
    case MsgRoute(_) => RouteLoad(m, rest, w);
    case MsgFound(_) => RouteLoad(m, rest, w);
    case MsgKinematics(k) => KinematicsLoad(Metres(k.position), rest, w);
    case MsgTick(_) => AutoTickLoad(m, rest, w);
    case _ => Pushed(Unlock(AutoL), rest);
  }

  lemma RouteLoad(m: Msg, rest: Todo, w: World)
    requires Ok(w) && MsgOk(m, w) && (m.MsgRoute? || m.MsgFound?)
    ensures Load(Begin(AutonomousC, m, rest, w).1) < FOUND_CALL + Load(rest)
  {
    AutonomousOk(m, rest, w);
    hide Drive, Quiet, Frame, Load, NodeSequence, RouteOk, Motor.Valid;
    if m.MsgRoute? {
      StartOk(w.auto, m.route);
      DriveLoad(rest, w.(auto := Start(w.auto, m.route)));
    } else {
      DriveLoad(rest, w.(auto := Enter(w.auto, m.entry, w.env.cache[m.entry].id)));
    }
  }

  lemma AutoTickLoad(m: Msg, rest: Todo, w: World)
    requires Ok(w) && MsgOk(m, w) && m.MsgTick?
    ensures Load(Begin(AutonomousC, m, rest, w).1) < TICK_CALL + Load(rest)
  {
    hide Ok, Quiet, Frame, Load;
    var r := Leave(AutoL, rest);
    Pushed(Unlock(AutoL), rest);
    Pushed(Emit(MsgPowerRequest), r);
    Pushed(Emit(MsgKinematicsRequest), Next(Emit(MsgPowerRequest), r));
  }

  /** Every action leads to less than it was counted for. */
  lemma DoLoad(bus: Bus, a: Act, rest: Todo, w: World)
    requires Ok(w) && Fits(a, w) && Wired(bus) && (a.Call? ==> a.m.Id() in Subscribes(a.c))
    ensures Load(Do(bus, a, rest, w).1) < Load(Next(a, rest))
  {
    Pushed(a, rest);
    match a
    case Emit(m) =>
      EmitLoad(bus, m, rest);
      hide Load, Calls, Weight, Wired, Ok;
    case Call(c, m) =>
      hide Load, Begin, Weight, Wired, Ok;
      if c == AutonomousC {
        AutonomousLoad(m, rest, w);
      } else if c == EnvironmentC {
        EnvironmentLoad(m, rest, w);
      } else if c == MotorC {
        MotorLoad(m, rest, w);
      } else {
        OtherLoad(c, m, rest, w);
      }
    case Check(x) =>
      CheckLoad(x, rest, w);
      hide Load, CheckNode, Weight, Wired, Ok;
    case Snap =>
      hide Wired, Ok, Load;
      Pushed(Emit(MsgTick(Snapshot(w.state))), rest);
    case Say =>
      hide Wired, Ok, Load;
      Pushed(Unlock(LogL), rest);
    case _ => hide Wired, Ok;
  }

  // ---- every run -------------------------------------------------------------------------------------

  lemma {:induction false} WorkUpdate(threads: seq<Todo>, i: nat, t: Todo)
    requires i < |threads|
    ensures Work(threads[i := t]) + Load(threads[i]) == Work(threads) + Load(t)
    decreases |threads|
  {
    hide Load;
    var last := |threads| - 1;
    if i == last {
      assert threads[i := t][..last] == threads[..last];
    } else {
      assert threads[i := t][..last] == threads[..last][i := t];
      WorkUpdate(threads[..last], i, t);
    }
  }

  /** Every action of every thread leaves less to be done. */
  lemma TakeProgresses(bus: Bus, s: Sys, i: nat)
    requires Wired(bus) && AllOrdered(s) && Sane(s) && i < |s.threads| && s.threads[i].Next?
    ensures Work(Taken(bus, s, i).threads) < Work(s.threads)
  {
    var t := s.threads[i];
    assert Allowed(t.a, t.rest);
    DoLoad(bus, t.a, t.rest, s.w);
    WorkUpdate(s.threads, i, Do(bus, t.a, t.rest, s.w).1);
    hide Do, Load, Work, Ok, Wired, Allowed;
  }

  /** What entries and decisions to log add. */
  function Added(mv: Move): nat {
    match mv
    case Submit(_, a) => Weight(a)
    case Speak(_) => 2
    case _ => 0
  }

  function AddedBy(moves: seq<Move>): nat {
    if moves == [] then 0 else AddedBy(moves[..|moves| - 1]) + Added(moves[|moves| - 1])
  }

  function Takes(moves: seq<Move>): nat {
    if moves == [] then 0 else Takes(moves[..|moves| - 1]) + if moves[|moves| - 1].Take? then 1 else 0
  }

  lemma StepProgresses(bus: Bus, s: Sys, mv: Move, s': Sys)
    requires Wired(bus) && AllOrdered(s) && Step(bus, s, mv, s')
    ensures Work(s'.threads) + (if mv.Take? then 1 else 0) <= Work(s.threads) + Added(mv)
  {
    if mv.Take? {
      TakeProgresses(bus, s, mv.i);
    } else if mv.Submit? {
      Pushed(mv.a, Nil);
      WorkUpdate(s.threads, mv.i, Next(mv.a, Nil));
      hide Sane, Load, Work, Weight;
      assert Load(Nil) == 0 by { NilIsDone(); }
    } else if mv.Speak? {
      Pushed(Say, s.threads[mv.i]);
      WorkUpdate(s.threads, mv.i, Next(Say, s.threads[mv.i]));
      hide Sane, Load, Work, Locks;
    }
  }

  lemma NilIsDone()
    ensures Load(Nil) == 0
  {
  }

  /**
    In every interleaving the actions taken are paid for by what was begun, submitted and logged: no dispatch
    goes on for ever. Without new entries and records at most `Work` more actions are taken, whoever takes them.
   */
  lemma {:induction false} RunsProgress(bus: Bus, states: seq<Sys>, moves: seq<Move>, k: nat)
    requires Wired(bus) && Run(bus, states, moves) && AllOrdered(states[0]) && k <= |moves|
    ensures Takes(moves[..k]) + Work(states[k].threads) <= Work(states[0].threads) + AddedBy(moves[..k])
    ensures AllOrdered(states[k])
  {
    hide Wired, Step, Added, Work, AllOrdered;
    if k > 0 {
      RunsProgress(bus, states, moves, k - 1);
      assert Step(bus, states[k - 1], moves[k - 1], states[k]);
      StepProgresses(bus, states[k - 1], moves[k - 1], states[k]);
      StepKeepsOrder(bus, states[k - 1], moves[k - 1], states[k]);
      assert moves[..k][..k - 1] == moves[..k - 1];
    }
  }

  /** Nothing is left to be done exactly when every thread is idle. */
  lemma {:induction false} DoneIsIdle(s: Sys)
    ensures Work(s.threads) == 0 <==> Idle(s)
    decreases |s.threads|
  {
    if s.threads != [] {
      var last := s.threads[|s.threads| - 1];
      assert last.Next? ==> Load(last) > 0;
      DoneIsIdle(s.(threads := s.threads[..|s.threads| - 1]));
    }
  }

  /** From any reachable state the threads can finish what they have begun: some run without submissions ends idle. */
  lemma {:induction false} CanFinish(bus: Bus, s: Sys, lo: real, hi: real) returns (states: seq<Sys>, moves: seq<Move>)
    requires Wired(bus) && Safe(s, lo, hi)
    ensures Run(bus, states, moves) && states[0] == s && Idle(states[|states| - 1])
    ensures forall mv | mv in moves :: mv.Take?
    decreases Work(s.threads)
  {
    if Idle(s) {
      states, moves := [s], [];
    } else {
      var i :| 0 <= i < |s.threads| && s.threads[i] != Nil;
      SafeIsSane(s, lo, hi);
      var path := WaitsEnd(s, i);
      var j := path[|path| - 1];
      TakeKeepsSafe(bus, s, j, lo, hi);
      TakeProgresses(bus, s, j);
      var s1 := Taken(bus, s, j);
      hide Safe, Wired, Ok, AllOrdered, Work, Do, Locks, Fits, Free;
      var rest, more := CanFinish(bus, s1, lo, hi);
      states, moves := [s] + rest, [Take(j)] + more;
      RunCons(bus, s, Take(j), rest, more);
    }
  }
}
