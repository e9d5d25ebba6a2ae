/** The energy a route has used, over every interleaving of the threads. */
module ThreadEnergy {
  import opened Wrappers
  import opened Messages
  import opened Motor
  import opened Physics
  import opened Environment
  import opened Route
  import opened Mesh
  import opened MeshAnswers
  import opened Threads
  import opened ThreadTraffic

  // ---- energy under way ----------------------------------------------------------------------------

  /** The energy of the readings that the thread has yet to hand to the controller. */
  function Carried(t: Todo): real {
    if t == Nil then 0.0 else Carried(t.rest) + CarriedBy(t.a)
  }

  function CarriedBy(a: Act): real {
    if a.Call? && a.c == AutonomousC && a.m.MsgPower? then Joules(a.m.power) else 0.0
  }

  function CarriedAll(threads: seq<Todo>): real {
    if threads == [] then 0.0 else CarriedAll(threads[..|threads| - 1]) + Carried(threads[|threads| - 1])
  }

  /** The energy of all readings published so far. */
  function Measured(sent: seq<Sent>): real {
    if sent == [] then 0.0
    else
      var last := sent[|sent| - 1];
      Measured(sent[..|sent| - 1]) + if last.msg.MsgPower? then Joules(last.msg.power) else 0.0
  }

  lemma MeasuredSnoc(sent: seq<Sent>, e: Sent)
    ensures Measured(sent + [e]) == Measured(sent) + if e.msg.MsgPower? then Joules(e.msg.power) else 0.0
  {
    assert (sent + [e])[..|sent|] == sent;
  }

  lemma Pushed(a: Act, t: Todo)
    ensures Carried(Next(a, t)) == Carried(t) + CarriedBy(a)
  {
  }

  // ---- one action ----------------------------------------------------------------------------------

  predicate StartsRoute(a: Act) { a.Call? && a.c == AutonomousC && a.m.MsgRoute? }

  /** Where the energy is counted from. */
  predicate SameStart(a: AutoState, b: AutoState) {
    b.startEnergy == a.startEnergy && b.startPos == a.startPos
  }

  lemma {:induction false} CallsCarry(hs: seq<Component>, m: Msg, rest: Todo)
    requires multiset(hs)[AutonomousC] <= 1
    ensures Carried(Calls(hs, m, rest))
         == Carried(rest) + if AutonomousC in hs && m.MsgPower? then Joules(m.power) else 0.0
    decreases |hs|
  {
    hide Carried, Joules;
    if hs != [] {
      var init, last := hs[..|hs| - 1], hs[|hs| - 1];
      assert hs == init + [last];
      Pushed(Call(last, m), rest);
      CallsCarry(init, m, Next(Call(last, m), rest));
    }
  }

  lemma EmitCarries(bus: Bus, m: Msg, rest: Todo)
    requires Wired(bus)
    ensures Carried(Calls(HandlersOf(bus, m.Id()), m, rest))
         == Carried(rest) + if m.MsgPower? then Joules(m.power) else 0.0
  {
    var hs := HandlersOf(bus, m.Id());
    assert Once(hs, AutonomousC, m.Id() in Subscribes(AutonomousC));
    assert m.MsgPower? ==> m.Id() in Subscribes(AutonomousC);
    hide Wired, Calls, Carried, HandlersOf, Msg.Id, Subscribes, Joules;
    CallsCarry(hs, m, rest);
  }

  lemma CheckCarries(x: real, rest: Todo, w: World)
    requires Ok(w) && w.auto.active
    ensures var (w', t) := CheckNode(x, rest, w);
            && w'.sent == w.sent && w'.auto.energy == w.auto.energy && SameStart(w.auto, w'.auto)
            && Carried(t) == Carried(rest)
  {
    hide Ok, NodeSequence, Reached, Carried, Joules;
    var record := Next(Record(x), rest);
    Pushed(Record(x), rest);
    Pushed(Emit(MsgSequence(STOP)), record);
    var t := CheckNode(x, rest, w).1;
    if t != rest {
      Pushed(t.a, t.rest);
    }
  }

  lemma AutonomousCarries(m: Msg, rest: Todo, w: World)
    requires Ok(w) && MsgOk(m, w) && !m.MsgRoute?
    ensures var (w', t) := Begin(AutonomousC, m, rest, w);
            && w'.sent == w.sent && SameStart(w.auto, w'.auto) && Carried(t) == Carried(rest)
            && w'.auto.energy == w.auto.energy + if m.MsgPower? then Joules(m.power) else 0.0
  {
    hide Ok, Begin, Carried, Joules;
    if m.MsgFound? {
      FoundCarries(m, rest, w);
    } else if m.MsgTick? || m.MsgKinematics? {
      SampleCarries(m, rest, w);
    } else {
      QuietCarries(m, rest, w);
    }
  }

  lemma SampleCarries(m: Msg, rest: Todo, w: World)
    requires Ok(w) && (m.MsgTick? || m.MsgKinematics?)
    ensures var (w', t) := Begin(AutonomousC, m, rest, w);
            && w'.sent == w.sent && SameStart(w.auto, w'.auto) && Carried(t) == Carried(rest)
            && w'.auto.energy == w.auto.energy
  {
    hide Ok, OffMap, Metres, Carried;
    var r := Leave(AutoL, rest);
    Pushed(Unlock(AutoL), rest);
    if m.MsgTick? {
      Pushed(Emit(MsgPowerRequest), r);
      Pushed(Emit(MsgKinematicsRequest), Next(Emit(MsgPowerRequest), r));
    } else {
      var x := Metres(m.kin.position);
      Pushed(Check(x), r);
      Pushed(Emit(MsgLookup(x, 0.0)), Next(Check(x), r));
    }
  }

  lemma QuietCarries(m: Msg, rest: Todo, w: World)
    requires Ok(w) && MsgOk(m, w) && !m.MsgRoute? && !m.MsgFound? && !m.MsgTick? && !m.MsgKinematics?
    ensures var (w', t) := Begin(AutonomousC, m, rest, w);
            && w'.sent == w.sent && SameStart(w.auto, w'.auto) && Carried(t) == Carried(rest)
            && w'.auto.energy == w.auto.energy + if m.MsgPower? then Joules(m.power) else 0.0
  {
    hide Ok, Carried;
    Pushed(Unlock(AutoL), rest);
  }

  lemma FoundCarries(m: Msg, rest: Todo, w: World)
    requires Ok(w) && MsgOk(m, w) && m.MsgFound?
    ensures var (w', t) := Begin(AutonomousC, m, rest, w);
            && w'.sent == w.sent && SameStart(w.auto, w'.auto) && Carried(t) == Carried(rest)
            && w'.auto.energy == w.auto.energy
  {
    EnterCounts(w.auto, m.entry, w.env.cache[m.entry].id);
    Pushed(Unlock(AutoL), rest);
    hide RouteOk, Motor.Valid, NodeSequence, Carried, Enter;
    var t := Begin(AutonomousC, m, rest, w).1;
    Pushed(t.a, t.rest);
  }

  lemma EnterCounts(a: AutoState, entry: nat, id: uint32)
    requires RouteOk(a)
    ensures Enter(a, entry, id).energy == a.energy && SameStart(a, Enter(a, entry, id))
  {
    hide RouteOk;
  }

  /** A route command starts the count anew, at the last position. */
  lemma RouteCarries(m: Msg, rest: Todo, w: World)
    requires Ok(w) && MsgOk(m, w) && m.MsgRoute?
    ensures var (w', t) := Begin(AutonomousC, m, rest, w);
            && w'.sent == w.sent && w'.auto.energy == w'.auto.startEnergy == 0.0 && w'.auto.startPos == w.auto.lastPos
            && Carried(t) == Carried(rest)
  {
    hide Ok, NodeSequence, Carried, Joules;
    Pushed(Unlock(AutoL), rest);
    var t := Begin(AutonomousC, m, rest, w).1;
    Pushed(t.a, t.rest);
  }

  lemma OtherCarries(c: Component, m: Msg, rest: Todo, w: World)
    requires Ok(w) && MsgOk(m, w) && c != AutonomousC
    ensures var (w', t) := Begin(c, m, rest, w);
            && w'.sent == w.sent && w'.auto == w.auto && Carried(t) == Carried(rest)
  {
    hide Ok, Begin, Carried;
    if c == EnvironmentC {
      EnvironmentCarries(m, rest, w);
    } else {
      ServiceCarries(c, m, rest, w);
    }
  }

  lemma EnvironmentCarries(m: Msg, rest: Todo, w: World)
    requires Ok(w) && MsgOk(m, w)
    ensures var (w', t) := Begin(EnvironmentC, m, rest, w);
            && w'.sent == w.sent && w'.auto == w.auto && Carried(t) == Carried(rest)
  {
    hide Ok, Lookup, Store, Carried, Joules;
    Pushed(Unlock(EnvL), rest);
    Pushed(Stamp(w.now), Leave(EnvL, rest));
    var t := Begin(EnvironmentC, m, rest, w).1;
    Pushed(t.a, t.rest);
  }

  lemma ServiceCarries(c: Component, m: Msg, rest: Todo, w: World)
    requires Ok(w) && MsgOk(m, w) && c != AutonomousC && c != EnvironmentC
    ensures var (w', t) := Begin(c, m, rest, w);
            && w'.sent == w.sent && w'.auto == w.auto && Carried(t) == Carried(rest)
  {
    hide Ok, OnSequence, OnTick, Integrate, KinOnStatus, PowerOnStatus, Heat, Carried, Joules;
    Pushed(Unlock(LockOf(c)), rest);
    var t := Begin(c, m, rest, w).1;
    Pushed(t.a, t.rest);
  }

  /** Energy counted and under way grows by what is published, unless a route is started. */
  predicate Balanced(a: Act, rest: Todo, w: World, w': World, t: Todo) {
    if StartsRoute(a) then
      && w'.auto.energy == w'.auto.startEnergy == 0.0 && w'.auto.startPos == w.auto.lastPos
      && Carried(t) == Carried(Next(a, rest)) && Measured(w'.sent) == Measured(w.sent)
    else
      && SameStart(w.auto, w'.auto)
      && w'.auto.energy + Carried(t) - Measured(w'.sent) == w.auto.energy + Carried(Next(a, rest)) - Measured(w.sent)
  }

  lemma DoBalances(bus: Bus, a: Act, rest: Todo, w: World)
    requires Ok(w) && Fits(a, w) && Wired(bus)
    ensures var (w', t) := Do(bus, a, rest, w); Balanced(a, rest, w, w', t)
  {
    Pushed(a, rest);
    hide Ok, Wired, Begin, CheckNode, Calls, Carried, Measured, Joules, HandlersOf;
    match a
    case Emit(m) =>
      EmitCarries(bus, m, rest);
      MeasuredSnoc(w.sent, Sent(m, w.now));
    case Call(c, m) =>
      if c != AutonomousC {
        OtherCarries(c, m, rest, w);
      } else if m.MsgRoute? {
        RouteCarries(m, rest, w);
      } else {
        AutonomousCarries(m, rest, w);
      }
    case Check(x) => CheckCarries(x, rest, w);
    case _ =>
      Pushed(Unlock(LogL), rest);
      Pushed(Emit(MsgTick(Snapshot(w.state))), rest);
  }

  // ---- every run -----------------------------------------------------------------------------------

  lemma {:induction false} CarriedUpdate(threads: seq<Todo>, i: nat, t: Todo)
    requires i < |threads|
    ensures CarriedAll(threads[i := t]) - Carried(t) == CarriedAll(threads) - Carried(threads[i])
    decreases |threads|
  {
    hide Carried;
    var last := |threads| - 1;
    if i == last {
      assert threads[i := t][..last] == threads[..last];
    } else {
      assert threads[i := t][..last] == threads[..last][i := t];
      CarriedUpdate(threads[..last], i, t);
    }
  }

  /** Energy counted or under way, less what was published: what it was counted from. */
  function Balance(s: Sys): real {
    s.w.auto.energy + CarriedAll(s.threads) - Measured(s.w.sent)
  }

  /** The controller takes a route command. */
  predicate TakesRoute(s: Sys, mv: Move) {
    TakenAct(s, mv).Some? && StartsRoute(TakenAct(s, mv).value)
  }

  lemma StepBalances(bus: Bus, s: Sys, mv: Move, s': Sys)
    requires Wired(bus) && Step(bus, s, mv, s')
    ensures if TakesRoute(s, mv) then
              && s'.w.auto.energy == s'.w.auto.startEnergy == 0.0 && s'.w.auto.startPos == s.w.auto.lastPos
              && CarriedAll(s'.threads) == CarriedAll(s.threads) && Measured(s'.w.sent) == Measured(s.w.sent)
            else SameStart(s.w.auto, s'.w.auto) && Balance(s') == Balance(s)
  {
    if mv.Take? {
      var t := s.threads[mv.i];
      DoBalances(bus, t.a, t.rest, s.w);
      CarriedUpdate(s.threads, mv.i, Do(bus, t.a, t.rest, s.w).1);
      hide Do, Enabled, Sane, Carried, Measured, CarriedAll, Wired;
    } else if mv.Submit? {
      CarriedUpdate(s.threads, mv.i, Next(mv.a, Nil));
      Pushed(mv.a, Nil);
      hide Sane, Measured, CarriedAll, Wired;
    } else if mv.Speak? {
      CarriedUpdate(s.threads, mv.i, Next(Say, s.threads[mv.i]));
      Pushed(Say, s.threads[mv.i]);
      hide Sane, Measured, CarriedAll, Wired, Carried, Locks;
    }
  }

  /**
    In every interleaving, as long as the controller takes no route command: the energy it has counted, together
    with the readings still under way to it, grows by exactly what the published readings amount to over ten
    milliseconds each; and what it counts from stays.
   */
  lemma {:induction false} RunsConserveEnergy(bus: Bus, states: seq<Sys>, moves: seq<Move>, j: nat, k: nat)
    requires Wired(bus) && Run(bus, states, moves) && j <= k < |states|
    requires forall l | j <= l < k :: !TakesRoute(states[l], moves[l])
    ensures SameStart(states[j].w.auto, states[k].w.auto)
    ensures states[k].w.auto.energy + CarriedAll(states[k].threads)
         == states[j].w.auto.energy + CarriedAll(states[j].threads)
            + (Measured(states[k].w.sent) - Measured(states[j].w.sent))
    decreases k
  {
    hide Wired, Step, TakesRoute, CarriedAll, Measured;
    if j < k {
      RunsConserveEnergy(bus, states, moves, j, k - 1);
      assert Step(bus, states[k - 1], moves[k - 1], states[k]);
      StepBalances(bus, states[k - 1], moves[k - 1], states[k]);
    }
  }

  /**
    The statistics of a node, whatever the threads do since the route command was taken at move `j`: a node check
    at `x` records the energy counted since then in millijoules, and what that is per metre since where the
    route began.
   */
  lemma NodesRecordEnergy(bus: Bus, states: seq<Sys>, moves: seq<Move>, j: nat, k: nat, x: real)
    requires Wired(bus) && Run(bus, states, moves) && j < k < |moves| && TakesRoute(states[j], moves[j])
    requires forall l | j < l < k :: !TakesRoute(states[l], moves[l])
    requires TakenAct(states[k], moves[k]) == Some(Check(x))
    requires var a := states[k].w.auto; a.active && a.idx < MAX_NODES && Reached(a.cmd.route[a.idx].x, a.lastPos, x)
    ensures var s, s', from := states[k], states[k + 1], states[j].w.auto.lastPos;
            && |s'.w.auto.status.stats| == MAX_NODES
            && var stats := s'.w.auto.status.stats[s.w.auto.idx];
               var counted := Measured(s.w.sent) - Measured(states[j].w.sent)
                              + CarriedAll(states[j].threads) - CarriedAll(s.threads);
               var metres := if x > from then x - from else from - x;
               && stats.initial == 0.0 && stats.final == stats.total == 1000.0 * counted
               && (if metres > 0.01 then stats.perMeter * metres == stats.total else stats.perMeter == 0.0)
  {
    hide *;
    StepAt(bus, states, moves, j);
    StepAt(bus, states, moves, k);
    StartCounts(bus, states[j], moves[j], states[j + 1]);
    RunsConserveEnergy(bus, states, moves, j + 1, k);
    StartStays(states[j + 1].w.auto, states[k].w.auto);
    CheckRecords(bus, states[k], moves[k], states[k + 1], x);
  }

  lemma StepAt(bus: Bus, states: seq<Sys>, moves: seq<Move>, k: nat)
    requires Run(bus, states, moves) && k < |moves|
    ensures |states| == |moves| + 1 && Step(bus, states[k], moves[k], states[k + 1])
  {
  }

  lemma StartCounts(bus: Bus, s: Sys, mv: Move, s': Sys)
    requires Wired(bus) && Step(bus, s, mv, s') && TakesRoute(s, mv)
    ensures s'.w.auto.energy == 0.0 && s'.w.auto.startPos == s.w.auto.lastPos
    ensures CarriedAll(s'.threads) == CarriedAll(s.threads) && Measured(s'.w.sent) == Measured(s.w.sent)
  {
    hide Wired, Step, TakesRoute;
    StepBalances(bus, s, mv, s');
  }

  lemma StartStays(a: AutoState, b: AutoState)
    requires SameStart(a, b)
    ensures b.startPos == a.startPos
  {
  }

  lemma CheckRecords(bus: Bus, s: Sys, mv: Move, s': Sys, x: real)
    requires Step(bus, s, mv, s') && TakenAct(s, mv) == Some(Check(x)) && s.w.auto.active
    requires s.w.auto.idx < MAX_NODES && Reached(s.w.auto.cmd.route[s.w.auto.idx].x, s.w.auto.lastPos, x)
    ensures |s'.w.auto.status.stats| == MAX_NODES
    ensures var stats, from := s'.w.auto.status.stats[s.w.auto.idx], s.w.auto.startPos;
            var metres := if x > from then x - from else from - x;
            && stats.initial == 0.0 && stats.final == stats.total == 1000.0 * s.w.auto.energy
            && (if metres > 0.01 then stats.perMeter * metres == stats.total else stats.perMeter == 0.0)
  {
    NodeEfficiency(s.w.auto, x);
    assert StatsOk(ReachNode(s.w.auto, x));
    hide Reached, Enabled, NodeSequence, ReachNode, RouteOk, Motor.Valid, StatsOk;
  }
}
