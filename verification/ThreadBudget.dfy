/** How many motor commands an entry leads its thread to, whatever the other threads do. */
module ThreadBudget {
  import opened Wrappers
  import opened Messages
  import opened Motor
  import opened Physics
  import opened Environment
  import opened Route
  import opened Mesh
  import opened MeshBudget
  import opened Threads
  import opened ThreadTraffic

  // ---- what a thread may still command ---------------------------------------------------------------

  /** Motor commands that one action can lead to. */
  function Cost(a: Act): nat {
    match a
    case Emit(m) => Budget(m.Id()) + if m.MsgSequence? then 1 else 0
    case Call(c, m) => if c == Carrier(m.Id()) then Budget(m.Id()) else 0
    case Check(_) => 1
    case Snap => Budget(PhysicsTick)
    case _ => 0
  }

  function Due(t: Todo): nat {
    if t == Nil then 0 else Cost(t.a) + Due(t.rest)
  }

  function Commanding(a: Act): nat {
    if a.Emit? && a.m.MsgSequence? then 1 else 0
  }

  lemma Pushed(a: Act, t: Todo)
    ensures Due(Next(a, t)) == Cost(a) + Due(t)
  {
  }

  lemma {:induction false} CallsDue(hs: seq<Component>, m: Msg, rest: Todo)
    requires multiset(hs)[Carrier(m.Id())] <= 1
    ensures Due(Calls(hs, m, rest)) == Due(rest) + if Carrier(m.Id()) in hs then Budget(m.Id()) else 0
    decreases |hs|
  {
    hide Carrier, Budget, Msg.Id, Due;
    if hs != [] {
      var init, last := hs[..|hs| - 1], hs[|hs| - 1];
      assert hs == init + [last];
      Pushed(Call(last, m), rest);
      CallsDue(init, m, Next(Call(last, m), rest));
    }
  }

  lemma EmitDue(bus: Bus, m: Msg, rest: Todo)
    requires Wired(bus)
    ensures Due(Calls(HandlersOf(bus, m.Id()), m, rest)) + Commanding(Emit(m)) <= Cost(Emit(m)) + Due(rest)
  {
    var hs, carrier := HandlersOf(bus, m.Id()), Carrier(m.Id());
    assert Once(hs, carrier, m.Id() in Subscribes(carrier));
    hide Wired, Calls, Due, Carrier, Budget, HandlersOf, Msg.Id, Subscribes;
    CallsDue(hs, m, rest);
  }

  lemma CheckDue(x: real, rest: Todo, w: World)
    requires Ok(w) && w.auto.active
    ensures Due(CheckNode(x, rest, w).1) <= 1 + Due(rest)
  {
    hide Ok, NodeSequence, Reached, Due;
    var record := Next(Record(x), rest);
    Pushed(Record(x), rest);
    Pushed(Emit(MsgSequence(STOP)), record);
    var t := CheckNode(x, rest, w).1;
    if t != rest {
      Pushed(t.a, t.rest);
    }
  }

  lemma AutonomousDue(m: Msg, rest: Todo, w: World)
    requires Ok(w) && MsgOk(m, w)
    ensures Due(Begin(AutonomousC, m, rest, w).1) <= Cost(Call(AutonomousC, m)) + Due(rest)
  {
    hide Ok, NodeSequence, Start, Enter, OffMap, Metres, Quiet, Due;
    var r := Leave(AutoL, rest);
    Pushed(Unlock(AutoL), rest);
    if m.MsgTick? {
      Pushed(Emit(MsgPowerRequest), r);
      Pushed(Emit(MsgKinematicsRequest), Next(Emit(MsgPowerRequest), r));
    } else if m.MsgKinematics? {
      var x := Metres(m.kin.position);
      Pushed(Check(x), r);
      Pushed(Emit(MsgLookup(x, 0.0)), Next(Check(x), r));
    } else {
      var t := Begin(AutonomousC, m, rest, w).1;
      Pushed(t.a, t.rest);
    }
  }

  lemma EnvironmentDue(m: Msg, rest: Todo, w: World)
    requires Ok(w) && MsgOk(m, w)
    ensures Due(Begin(EnvironmentC, m, rest, w).1) <= Cost(Call(EnvironmentC, m)) + Due(rest)
  {
    hide Ok, Lookup, Store, Quiet, Due;
    Pushed(Unlock(EnvL), rest);
    Pushed(Stamp(w.now), Leave(EnvL, rest));
    var t := Begin(EnvironmentC, m, rest, w).1;
    Pushed(t.a, t.rest);
  }

  lemma OtherDue(c: Component, m: Msg, rest: Todo, w: World)
    requires Ok(w) && MsgOk(m, w) && c != AutonomousC && c != EnvironmentC
    ensures Due(Begin(c, m, rest, w).1) <= Cost(Call(c, m)) + Due(rest)
  {
    hide Ok, OnSequence, OnTick, Quiet, Due;
    Pushed(Unlock(LockOf(c)), rest);
    var t := Begin(c, m, rest, w).1;
    Pushed(t.a, t.rest);
  }

  /** An action leads to no more commands than it was counted for. */
  lemma DoDue(bus: Bus, a: Act, rest: Todo, w: World)
    requires Ok(w) && Fits(a, w) && Wired(bus)
    ensures Due(Do(bus, a, rest, w).1) + Commanding(a) <= Due(Next(a, rest))
  {
    Pushed(a, rest);
    match a
    case Emit(m) =>
      EmitDue(bus, m, rest);
      hide Due, Calls, Cost, Ok;
    case Call(c, m) =>
      hide Due, Begin, Cost, Ok;
      if c == AutonomousC {
        AutonomousDue(m, rest, w);
      } else if c == EnvironmentC {
        EnvironmentDue(m, rest, w);
      } else {
        OtherDue(c, m, rest, w);
      }
    case Check(x) =>
      CheckDue(x, rest, w);
      hide Due, CheckNode, Ok;
    case _ =>
      hide Ok, Due;
      Pushed(Unlock(LogL), rest);
      Pushed(Emit(MsgTick(Snapshot(w.state))), rest);
  }

  // ---- every run -------------------------------------------------------------------------------------

  /** Motor commands that thread `i` publishes from state `j` to state `k`. */
  function CommandsOf(states: seq<Sys>, moves: seq<Move>, j: nat, k: nat, i: nat): nat
    requires j <= k <= |moves| < |states|
    decreases k
  {
    if k == j then 0 else CommandsOf(states, moves, j, k - 1, i) + CommandedBy(states[k - 1], moves[k - 1], i)
  }

  function CommandedBy(s: Sys, mv: Move, i: nat): nat {
    if mv == Take(i) && TakenAct(s, mv).Some? then Commanding(TakenAct(s, mv).value) else 0
  }

  predicate Submits(mv: Move, i: nat) { mv.Submit? && mv.i == i }

  lemma StepDue(bus: Bus, s: Sys, mv: Move, s': Sys, i: nat)
    requires Wired(bus) && Step(bus, s, mv, s') && i < |s.threads| && !Submits(mv, i)
    ensures |s'.threads| == |s.threads|
    ensures Due(s'.threads[i]) + CommandedBy(s, mv, i) <= Due(s.threads[i])
  {
    if mv.Take? {
      DoDue(bus, s.threads[mv.i].a, s.threads[mv.i].rest, s.w);
      hide Do, Sane, Enabled, Due, Commanding;
    } else if mv.Speak? {
      Pushed(Say, s.threads[mv.i]);
      hide Sane, Due, Locks;
    } else {
      hide Sane, Due;
    }
  }

  /** Until thread `i` is given something else to do, it commands no more than is due. */
  lemma {:induction false} RunsWithinBudget(bus: Bus, states: seq<Sys>, moves: seq<Move>, j: nat, k: nat, i: nat)
    requires Wired(bus) && Run(bus, states, moves) && j <= k <= |moves| && i < |states[j].threads|
    requires forall l | j <= l < k :: !Submits(moves[l], i)
    ensures |states[k].threads| == |states[j].threads|
    ensures CommandsOf(states, moves, j, k, i) + Due(states[k].threads[i]) <= Due(states[j].threads[i])
    decreases k
  {
    hide Wired, Step, Due, CommandedBy, Submits;
    if j < k {
      RunsWithinBudget(bus, states, moves, j, k - 1, i);
      assert Step(bus, states[k - 1], moves[k - 1], states[k]);
      StepDue(bus, states[k - 1], moves[k - 1], states[k], i);
    }
  }

  /**
    Whatever other threads do: a thread that is given a tick of the clock to publish publishes at most two motor
    commands before it gets something else to do; a request for the kinematics leads to two, a route or a
    motor sequence to one, and every other entry to none.
   */
  lemma EntriesWithinBudget(bus: Bus, states: seq<Sys>, moves: seq<Move>, j: nat, k: nat, i: nat, a: Act)
    requires Wired(bus) && Run(bus, states, moves) && j < k <= |moves| && moves[j] == Submit(i, a)
    requires forall l | j < l < k :: !Submits(moves[l], i)
    ensures CommandsOf(states, moves, j + 1, k, i) <= Cost(a)
    ensures a.Snap? || (a.Emit? && a.m.MsgKinematicsRequest?) ==> CommandsOf(states, moves, j + 1, k, i) <= 2
    ensures a.Emit? && (a.m.MsgRoute? || a.m.MsgSequence?) ==> CommandsOf(states, moves, j + 1, k, i) <= 1
    ensures a.Emit? && a.m.Id() !in {KinematicsRequest, AutoDriveCommand, MotorSequence} ==>
              CommandsOf(states, moves, j + 1, k, i) == 0
  {
    hide *;
    FirstStep(bus, states, moves, j);
    Submitted(bus, states[j], i, a, states[j + 1]);
    EntryCosts(a);
    RunsWithinBudget(bus, states, moves, j + 1, k, i);
  }

  lemma FirstStep(bus: Bus, states: seq<Sys>, moves: seq<Move>, j: nat)
    requires Run(bus, states, moves) && j < |moves|
    ensures |states| == |moves| + 1 && Step(bus, states[j], moves[j], states[j + 1])
  {
  }

  lemma Submitted(bus: Bus, s: Sys, i: nat, a: Act, s': Sys)
    requires Step(bus, s, Submit(i, a), s')
    ensures i < |s'.threads| && Due(s'.threads[i]) == Cost(a) && Entry(a)
  {
    Pushed(a, Nil);
    hide Sane, Cost;
  }

  lemma EntryCosts(a: Act)
    requires Entry(a)
    ensures a.Snap? || (a.Emit? && a.m.MsgKinematicsRequest?) ==> Cost(a) == 2
    ensures a.Emit? && (a.m.MsgRoute? || a.m.MsgSequence?) ==> Cost(a) == 1
    ensures a.Emit? && a.m.Id() !in {KinematicsRequest, AutoDriveCommand, MotorSequence} ==> Cost(a) == 0
  {
  }
}
