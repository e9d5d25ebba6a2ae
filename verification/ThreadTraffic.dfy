/** Reports and external requests over every interleaving of the threads. */
module ThreadTraffic {
  import opened Wrappers
  import opened Messages
  import opened Motor
  import opened Physics
  import opened Environment
  import opened Route
  import opened Mesh
  import opened MeshTraffic
  import opened Threads
  import opened ThreadOrder

  /** Messages of this id that the thread is about to publish. */
  function Pending(t: Todo, id: MsgId): nat {
    if t == Nil then 0 else Pending(t.rest, id) + if t.a.Emit? && t.a.m.Id() == id then 1 else 0
  }

  function PendingAll(threads: seq<Todo>, id: MsgId): nat {
    if threads == [] then 0
    else PendingAll(threads[..|threads| - 1], id) + Pending(threads[|threads| - 1], id)
  }

  /**
    A lookup that no cached region answers, with the last request more than 500 ms before this reading of the clock.
   */
  predicate Decides(a: Act, w: World) {
    && a.Call? && a.c == EnvironmentC && a.m.MsgLookup?
    && Lookup(w.env.cache, a.m.x, a.m.y).None? && w.now - w.env.lastRequest > THROTTLE
  }

  /** What an action adds to the messages of an id that are published or about to be. */
  function Created(a: Act, w: World, w': World, id: MsgId): nat {
    if id == AutoDriveStatus then (if a.Check? && !w'.auto.active then 1 else 0)
    else if Decides(a, w) then 1 else 0
  }

  predicate Watched(id: MsgId) { id == AutoDriveStatus || id == EnvironmentRequest }

  // ---- one action ----------------------------------------------------------------------------------

  lemma {:induction false} CallsPending(hs: seq<Component>, m: Msg, rest: Todo, id: MsgId)
    ensures Pending(Calls(hs, m, rest), id) == Pending(rest, id)
    decreases |hs|
  {
    if hs != [] {
      CallsPending(hs[..|hs| - 1], m, Next(Call(hs[|hs| - 1], m), rest), id);
    }
  }

  lemma CheckPending(x: real, rest: Todo, w: World, id: MsgId)
    requires Ok(w) && w.auto.active && Watched(id)
    ensures var (w', t) := CheckNode(x, rest, w);
            && w'.sent == w.sent
            && Pending(t, id) == Pending(rest, id) + Created(Check(x), w, w', id)
  {
    hide Ok, Reached, NodeSequence, Pending;
    var record := Next(Record(x), rest);
    OneMore(Record(x), rest, id);
    OneMore(Emit(MsgSequence(STOP)), record, id);
    var t := CheckNode(x, rest, w).1;
    if t != rest {
      OneMore(t.a, t.rest, id);
    }
  }

  lemma OneMore(a: Act, rest: Todo, id: MsgId)
    ensures Pending(Next(a, rest), id) == Pending(rest, id) + if a.Emit? && a.m.Id() == id then 1 else 0
  {
  }

  lemma BeginPending(c: Component, m: Msg, rest: Todo, w: World, id: MsgId)
    requires Ok(w) && MsgOk(m, w) && Watched(id)
    ensures var (w', t) := Begin(c, m, rest, w);
            && w'.sent == w.sent
            && Pending(t, id) == Pending(rest, id) + Created(Call(c, m), w, w', id)
  {
    hide Begin, Pending, Ok;
    if c == EnvironmentC {
      EnvironmentPending(m, rest, w, id);
    } else if c == AutonomousC {
      AutonomousPending(m, rest, w, id);
    } else {
      OtherPending(c, m, rest, w, id);
    }
  }

  lemma OtherPending(c: Component, m: Msg, rest: Todo, w: World, id: MsgId)
    requires Ok(w) && MsgOk(m, w) && Watched(id) && c != EnvironmentC && c != AutonomousC
    ensures var (w', t) := Begin(c, m, rest, w); w'.sent == w.sent && Pending(t, id) == Pending(rest, id)
  {
    hide Ok, OnSequence, OnTick, Pending, Quiet, Frame;
    var r := Leave(LockOf(c), rest);
    OneMore(Unlock(LockOf(c)), rest, id);
    var t := Begin(c, m, rest, w).1;
    OneMore(t.a, t.rest, id);
  }

  lemma EnvironmentPending(m: Msg, rest: Todo, w: World, id: MsgId)
    requires Ok(w) && MsgOk(m, w) && Watched(id)
    ensures var (w', t) := Begin(EnvironmentC, m, rest, w);
            && w'.sent == w.sent
            && Pending(t, id) == Pending(rest, id) + Created(Call(EnvironmentC, m), w, w', id)
  {
    hide Ok, Lookup, Store, Pending, Quiet, Frame;
    var r := Leave(EnvL, rest);
    OneMore(Unlock(EnvL), rest, id);
    if m.MsgLookup? {
      MissPending(m, w.now, r, id);
      var hit := Lookup(w.env.cache, m.x, m.y);
      if hit.Some? {
        OneMore(Emit(MsgFound(hit.value)), r, id);
      }
    } else if m.MsgRegion? {
      OneMore(Emit(MsgRegionAck(m.region.id)), r, id);
    }
  }

  lemma MissPending(m: Msg, at: int, r: Todo, id: MsgId)
    requires m.MsgLookup? && Watched(id)
    ensures Pending(Next(Emit(MsgRegionRequest(m.x, m.y)), Next(Stamp(at), r)), id)
         == Pending(r, id) + if id == EnvironmentRequest then 1 else 0
  {
    OneMore(Stamp(at), r, id);
  }

  lemma AutonomousPending(m: Msg, rest: Todo, w: World, id: MsgId)
    requires Ok(w) && MsgOk(m, w) && Watched(id)
    ensures var (w', t) := Begin(AutonomousC, m, rest, w); w'.sent == w.sent && Pending(t, id) == Pending(rest, id)
  {
    hide Ok, Begin, Pending;
    if m.MsgTick? || m.MsgKinematics? {
      SamplePending(m, rest, w, id);
    } else {
      DrivePending(m, rest, w, id);
    }
  }

  lemma SamplePending(m: Msg, rest: Todo, w: World, id: MsgId)
    requires Ok(w) && Watched(id) && (m.MsgTick? || m.MsgKinematics?)
    ensures var (w', t) := Begin(AutonomousC, m, rest, w); w'.sent == w.sent && Pending(t, id) == Pending(rest, id)
  {
    hide Ok, OffMap, Metres, Pending;
    var r := Leave(AutoL, rest);
    OneMore(Unlock(AutoL), rest, id);
    if m.MsgTick? {
      OneMore(Emit(MsgPowerRequest), r, id);
      OneMore(Emit(MsgKinematicsRequest), Next(Emit(MsgPowerRequest), r), id);
    } else {
      var x := Metres(m.kin.position);
      OneMore(Check(x), r, id);
      OneMore(Emit(MsgLookup(x, 0.0)), Next(Check(x), r), id);
    }
  }

  lemma DrivePending(m: Msg, rest: Todo, w: World, id: MsgId)
    requires Ok(w) && MsgOk(m, w) && Watched(id) && !m.MsgTick? && !m.MsgKinematics?
    ensures var (w', t) := Begin(AutonomousC, m, rest, w); w'.sent == w.sent && Pending(t, id) == Pending(rest, id)
  {
    hide Ok, NodeSequence, Start, Enter, Pending, Quiet, Frame;
    OneMore(Unlock(AutoL), rest, id);
    var t := Begin(AutonomousC, m, rest, w).1;
    OneMore(t.a, t.rest, id);
  }

  lemma DoPending(bus: Bus, a: Act, rest: Todo, w: World, id: MsgId)
    requires Ok(w) && Fits(a, w) && Watched(id)
    ensures var (w', t) := Do(bus, a, rest, w);
            Count(w'.sent, id) + Pending(t, id) == Count(w.sent, id) + Pending(Next(a, rest), id)
              + Created(a, w, w', id)
  {
    hide Ok, Count, Begin, CheckNode, Calls;
    match a
    case Emit(m) =>
      CallsPending(HandlersOf(bus, m.Id()), m, rest, id);
      CountSnoc(w.sent, Sent(m, w.now), id);
    case Call(c, m) => BeginPending(c, m, rest, w, id);
    case Check(x) => CheckPending(x, rest, w, id);
    case _ =>
      assert Pending(Leave(LogL, rest), id) == Pending(rest, id);
  }

  // ---- all threads -----------------------------------------------------------------------------------

  lemma {:induction false} PendingUpdate(threads: seq<Todo>, i: nat, t: Todo, id: MsgId)
    requires i < |threads|
    ensures PendingAll(threads[i := t], id) + Pending(threads[i], id) == PendingAll(threads, id) + Pending(t, id)
    decreases |threads|
  {
    hide Pending;
    var last := |threads| - 1;
    if i == last {
      assert threads[i := t][..last] == threads[..last];
    } else {
      assert threads[i := t][..last] == threads[..last][i := t];
      PendingUpdate(threads[..last], i, t, id);
    }
  }

  /** The action that a move takes. */
  function TakenAct(s: Sys, mv: Move): Option<Act> {
    if mv.Take? && mv.i < |s.threads| && s.threads[mv.i].Next? then Some(s.threads[mv.i].a) else None
  }

  function CreatedBy(s: Sys, mv: Move, s': Sys, id: MsgId): nat {
    if TakenAct(s, mv).Some? then Created(TakenAct(s, mv).value, s.w, s'.w, id) else 0
  }

  /** Messages of an id published so far, or about to be by some thread. */
  function Total(s: Sys, id: MsgId): nat {
    Count(s.w.sent, id) + PendingAll(s.threads, id)
  }

  lemma StepTotal(bus: Bus, s: Sys, mv: Move, s': Sys, id: MsgId)
    requires Step(bus, s, mv, s') && Watched(id)
    ensures Total(s', id) == Total(s, id) + CreatedBy(s, mv, s', id)
  {
    if mv.Take? {
      var t := s.threads[mv.i];
      DoPending(bus, t.a, t.rest, s.w, id);
      PendingUpdate(s.threads, mv.i, Do(bus, t.a, t.rest, s.w).1, id);
      hide Do, Sane, Enabled, Count, Pending, Created;
    } else if mv.Submit? {
      PendingUpdate(s.threads, mv.i, Next(mv.a, Nil), id);
      hide Sane, Count, PendingAll;
      assert Pending(Next(mv.a, Nil), id) == Pending(Nil, id);
    } else if mv.Speak? {
      PendingUpdate(s.threads, mv.i, Next(Say, s.threads[mv.i]), id);
      hide Sane, Count, PendingAll, Locks;
      assert Pending(Next(Say, s.threads[mv.i]), id) == Pending(s.threads[mv.i], id);
    }
  }

  lemma {:induction false} IdlePends(s: Sys, id: MsgId)
    requires Idle(s)
    ensures PendingAll(s.threads, id) == 0
    decreases |s.threads|
  {
    if s.threads != [] {
      var fewer := s.(threads := s.threads[..|s.threads| - 1]);
      IdlePends(fewer, id);
    }
  }

  // ---- reports ---------------------------------------------------------------------------------------

  /** The node check that ended the route. */
  predicate EndsRoute(s: Sys, mv: Move, s': Sys) {
    TakenAct(s, mv).Some? && TakenAct(s, mv).value.Check? && s.w.auto.active && !s'.w.auto.active
  }

  function RoutesEnded(states: seq<Sys>, moves: seq<Move>, k: nat): nat
    requires k <= |moves| < |states|
  {
    if k == 0 then 0
    else RoutesEnded(states, moves, k - 1) + if EndsRoute(states[k - 1], moves[k - 1], states[k]) then 1 else 0
  }

  /** An ended route is complete in every node. */
  lemma EndedIsComplete(bus: Bus, s: Sys, mv: Move, s': Sys)
    requires Step(bus, s, mv, s') && EndsRoute(s, mv, s')
    ensures s'.w.auto.status.complete && s'.w.auto.cmd == s.w.auto.cmd
    ensures s'.w.auto.status.numStats == s.w.auto.cmd.numNodes
  {
    hide Motor.Valid, StatsOk, EnvsOk, ApproachOk, NodeSequence, Reached;
  }

  /** Reports about to be published say complete, and the stop is the thread's next action. */
  predicate Closed(t: Todo) {
    t.Next? ==>
      && Closed(t.rest)
      && (t.a.Emit? && t.a.m.MsgRouteStatus? ==>
            t.a.m.report.complete && t.rest.Next? && t.rest.a == Emit(MsgSequence(STOP)))
  }

  predicate ReportsComplete(s: seq<Sent>, from: nat) {
    forall i | from <= i < |s| && s[i].msg.MsgRouteStatus? :: s[i].msg.report.complete
  }

  lemma {:induction false} CallsClosed(hs: seq<Component>, m: Msg, rest: Todo)
    requires Closed(rest)
    ensures Closed(Calls(hs, m, rest))
    decreases |hs|
  {
    if hs != [] {
      CallsClosed(hs[..|hs| - 1], m, Next(Call(hs[|hs| - 1], m), rest));
    }
  }

  lemma CheckClosed(x: real, rest: Todo, w: World)
    requires Ok(w) && w.auto.active && Closed(rest)
    ensures Closed(CheckNode(x, rest, w).1)
  {
    hide Motor.Valid, StatsOk, EnvsOk, ApproachOk, NodeSequence, Reached;
    var stop := Next(Emit(MsgSequence(STOP)), Next(Record(x), rest));
    assert Closed(stop);
  }

  lemma BeginClosed(c: Component, m: Msg, rest: Todo, w: World)
    requires Ok(w) && MsgOk(m, w) && Closed(rest)
    ensures Closed(Begin(c, m, rest, w).1)
  {
    hide Ok, OnSequence, OnTick, Lookup, Store, NodeSequence, Start, Enter, OffMap, Metres, Quiet;
    var r := Leave(LockOf(c), rest);
    assert Closed(r);
    assert forall x :: Closed(Next(Check(x), r));
    assert forall at :: Closed(Next(Stamp(at), r));
    assert Closed(Next(Emit(MsgPowerRequest), r));
  }

  lemma DoClosed(bus: Bus, a: Act, rest: Todo, w: World, from: nat)
    requires Ok(w) && Fits(a, w) && Closed(Next(a, rest)) && ReportsComplete(w.sent, from)
    ensures var (w', t) := Do(bus, a, rest, w); Closed(t) && ReportsComplete(w'.sent, from)
  {
    match a
    case Emit(m) => CallsClosed(HandlersOf(bus, m.Id()), m, rest);
    case Call(c, m) =>
      BeginClosed(c, m, rest, w);
      BeginPending(c, m, rest, w, AutoDriveStatus);
      hide Begin, Ok;
    case Check(x) =>
      CheckClosed(x, rest, w);
      CheckPending(x, rest, w, AutoDriveStatus);
      hide CheckNode, Ok;
    case _ => hide Ok;
  }

  predicate AllClosed(s: Sys, from: nat) {
    ReportsComplete(s.w.sent, from) && forall i | 0 <= i < |s.threads| :: Closed(s.threads[i])
  }

  lemma StepClosed(bus: Bus, s: Sys, mv: Move, s': Sys, from: nat)
    requires Step(bus, s, mv, s') && AllClosed(s, from)
    ensures AllClosed(s', from)
  {
    if mv.Take? {
      var t := s.threads[mv.i];
      DoClosed(bus, t.a, t.rest, s.w, from);
      hide Do, Sane, Enabled, Closed, ReportsComplete;
    } else {
      hide Sane, ReportsComplete;
      assert mv.Submit? ==> Closed(Next(mv.a, Nil));
      assert mv.Speak? ==> Closed(Next(Say, s.threads[mv.i]));
    }
  }

  /**
    In every state of every interleaving: the reports published since the start, and those a thread is about to
    publish, are exactly the routes that a node check ended; all of them say complete.
   */
  lemma {:induction false} RunsReport(bus: Bus, states: seq<Sys>, moves: seq<Move>, k: nat)
    requires Run(bus, states, moves) && Idle(states[0]) && k < |states|
    ensures Total(states[k], AutoDriveStatus)
            == Count(states[0].w.sent, AutoDriveStatus) + RoutesEnded(states, moves, k)
    ensures AllClosed(states[k], |states[0].w.sent|)
  {
    hide Total, AllClosed, Can, Make, Sane, EndsRoute;
    if k == 0 {
      IdleReports(states[0]);
    } else {
      RunsReport(bus, states, moves, k - 1);
      assert Step(bus, states[k - 1], moves[k - 1], states[k]);
      hide Step;
      StepTotal(bus, states[k - 1], moves[k - 1], states[k], AutoDriveStatus);
      StepClosed(bus, states[k - 1], moves[k - 1], states[k], |states[0].w.sent|);
      CreatedIsEnded(bus, states[k - 1], moves[k - 1], states[k]);
    }
  }

  lemma IdleReports(s: Sys)
    requires Idle(s)
    ensures Total(s, AutoDriveStatus) == Count(s.w.sent, AutoDriveStatus) && AllClosed(s, |s.w.sent|)
  {
    IdlePends(s, AutoDriveStatus);
  }

  lemma CreatedIsEnded(bus: Bus, s: Sys, mv: Move, s': Sys)
    requires Step(bus, s, mv, s')
    ensures CreatedBy(s, mv, s', AutoDriveStatus) == if EndsRoute(s, mv, s') then 1 else 0
  {
    hide Ok, Make, Enabled;
  }

  /** The thread's next publish, if nothing before it can publish. */
  function NextEmit(t: Todo): Option<Msg> {
    if t == Nil then None
    else match t.a
      case Emit(m) => Some(m)
      case Call(c, m) => if Publishing(c, m) then None else NextEmit(t.rest)
      case Unlock(_) => NextEmit(t.rest)
      case Say => NextEmit(t.rest)
      case _ => None
  }

  lemma {:induction false} CallsNextEmit(hs: seq<Component>, m: Msg, rest: Todo)
    requires m.MsgRouteStatus?
    ensures NextEmit(Calls(hs, m, rest)) == NextEmit(rest)
    decreases |hs|
  {
    if hs != [] {
      CallsNextEmit(hs[..|hs| - 1], m, Next(Call(hs[|hs| - 1], m), rest));
    }
  }

  /** Whatever other threads do in between: the thread that published a report publishes the stop next. */
  lemma StopFollowsReport(bus: Bus, states: seq<Sys>, moves: seq<Move>, k: nat, i: nat)
    requires Run(bus, states, moves) && Idle(states[0]) && k < |moves| && moves[k] == Take(i)
    requires i < |states[k].threads| && states[k].threads[i].Next?
    requires states[k].threads[i].a.Emit? && states[k].threads[i].a.m.MsgRouteStatus?
    ensures i < |states[k + 1].threads| && NextEmit(states[k + 1].threads[i]) == Some(MsgSequence(STOP))
  {
    RunsReport(bus, states, moves, k);
    assert Step(bus, states[k], moves[k], states[k + 1]);
    var t := states[k].threads[i];
    assert Closed(t);
    CallsNextEmit(HandlersOf(bus, t.a.m.Id()), t.a.m, t.rest);
    hide Sane, Enabled, Closed, Calls;
  }
}
