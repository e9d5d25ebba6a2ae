/** The throttle of external requests over every interleaving of the threads. */
module ThreadRequests {
  import opened Wrappers
  import opened Messages
  import opened Motor
  import opened Physics
  import opened Environment
  import opened Route
  import opened Mesh
  import opened MeshTraffic
  import opened Threads
  import opened ThreadOrder
  import opened ThreadTraffic

  /** The readings of the clock that decided on an external request, in the order of the decisions. */
  function Readings(states: seq<Sys>, moves: seq<Move>, k: nat): seq<int>
    requires k <= |moves| < |states|
  {
    if k == 0 then [] else Readings(states, moves, k - 1) + Reading(states[k - 1], moves[k - 1])
  }

  function Reading(s: Sys, mv: Move): seq<int> {
    if TakenAct(s, mv).Some? && Decides(TakenAct(s, mv).value, s.w) then [s.w.now] else []
  }

  /** The last reading, or what the service started with. */
  function LastOf(start: int, readings: seq<int>): int {
    if readings == [] then start else readings[|readings| - 1]
  }

  predicate Spaced(readings: seq<int>) {
    forall i | 0 < i < |readings| :: readings[i] - readings[i - 1] > THROTTLE
  }

  // ---- the stamp under way -------------------------------------------------------------------------

  /** The thread has yet to record a reading. */
  predicate Stamping(t: Todo) {
    t.Next? && (t.a.Stamp? || Stamping(t.rest))
  }

  /** Every reading that it has yet to record is `at`. */
  predicate Stamps(t: Todo, at: int) {
    t.Next? ==> (t.a.Stamp? ==> t.a.at == at) && Stamps(t.rest, at)
  }

  lemma {:induction false} StampingHolds(t: Todo)
    requires Ordered(t) && Stamping(t)
    ensures EnvL in Locks(t)
  {
    if !t.a.Stamp? {
      StampingHolds(t.rest);
    }
  }

  lemma {:induction false} NoStamps(t: Todo, at: int)
    requires !Stamping(t)
    ensures Stamps(t, at)
  {
    if t.Next? {
      NoStamps(t.rest, at);
    }
  }

  lemma {:induction false} CallsStamp(hs: seq<Component>, m: Msg, rest: Todo, at: int)
    ensures Stamping(Calls(hs, m, rest)) == Stamping(rest) && Stamps(Calls(hs, m, rest), at) == Stamps(rest, at)
    decreases |hs|
  {
    if hs != [] {
      CallsStamp(hs[..|hs| - 1], m, Next(Call(hs[|hs| - 1], m), rest), at);
    }
  }

  /** The same readings are under way. */
  predicate SameStamps(t: Todo, t': Todo, at: int) {
    Stamping(t') == Stamping(t) && Stamps(t', at) == Stamps(t, at)
  }

  lemma Pushed(a: Act, t: Todo, at: int)
    requires !a.Stamp?
    ensures SameStamps(t, Next(a, t), at)
  {
  }

  lemma CheckStamps(x: real, rest: Todo, w: World, at: int)
    requires Ok(w) && w.auto.active
    ensures var (w', t) := CheckNode(x, rest, w); w'.env == w.env && SameStamps(rest, t, at)
  {
    hide Ok, Reached, NodeSequence, Stamping, Stamps;
    var record := Next(Record(x), rest);
    Pushed(Record(x), rest, at);
    Pushed(Emit(MsgSequence(STOP)), record, at);
    var t := CheckNode(x, rest, w).1;
    if t != rest {
      Pushed(t.a, t.rest, at);
    }
  }

  /** Nothing but a decision starts a reading, and no handler records one. */
  lemma BeginStamps(c: Component, m: Msg, rest: Todo, w: World, at: int)
    requires Ok(w) && MsgOk(m, w) && !Decides(Call(c, m), w)
    ensures var (w', t) := Begin(c, m, rest, w); w'.env.lastRequest == w.env.lastRequest && SameStamps(rest, t, at)
  {
    hide Begin, Ok, SameStamps, Decides;
    if c == EnvironmentC {
      EnvironmentStamps(m, rest, w, at);
    } else if c == AutonomousC {
      AutonomousStamps(m, rest, w, at);
    } else {
      OtherStamps(c, m, rest, w, at);
    }
  }

  lemma OtherStamps(c: Component, m: Msg, rest: Todo, w: World, at: int)
    requires Ok(w) && MsgOk(m, w) && c != EnvironmentC && c != AutonomousC
    ensures var (w', t) := Begin(c, m, rest, w); w'.env.lastRequest == w.env.lastRequest && SameStamps(rest, t, at)
  {
    hide Ok, OnSequence, OnTick, Quiet, Frame, Stamping, Stamps;
    Pushed(Unlock(LockOf(c)), rest, at);
    var t := Begin(c, m, rest, w).1;
    if t.a.Emit? {
      Pushed(t.a, t.rest, at);
    }
  }

  lemma EnvironmentStamps(m: Msg, rest: Todo, w: World, at: int)
    requires Ok(w) && MsgOk(m, w) && !Decides(Call(EnvironmentC, m), w)
    ensures var (w', t) := Begin(EnvironmentC, m, rest, w);
            w'.env.lastRequest == w.env.lastRequest && SameStamps(rest, t, at)
  {
    hide Ok, Lookup, Store, Quiet, Frame, Stamping, Stamps;
    Pushed(Unlock(EnvL), rest, at);
    var t := Begin(EnvironmentC, m, rest, w).1;
    if t.a.Emit? {
      Pushed(t.a, t.rest, at);
    }
  }

  lemma AutonomousStamps(m: Msg, rest: Todo, w: World, at: int)
    requires Ok(w) && MsgOk(m, w)
    ensures var (w', t) := Begin(AutonomousC, m, rest, w);
            w'.env.lastRequest == w.env.lastRequest && SameStamps(rest, t, at)
  {
    hide Ok, NodeSequence, Start, Enter, OffMap, Metres, Quiet, Frame, Stamping, Stamps;
    var r := Leave(AutoL, rest);
    Pushed(Unlock(AutoL), rest, at);
    if m.MsgTick? {
      Pushed(Emit(MsgPowerRequest), r, at);
      Pushed(Emit(MsgKinematicsRequest), Next(Emit(MsgPowerRequest), r), at);
    } else if m.MsgKinematics? {
      var x := Metres(m.kin.position);
      Pushed(Check(x), r, at);
      Pushed(Emit(MsgLookup(x, 0.0)), Next(Check(x), r), at);
    } else {
      var t := Begin(AutonomousC, m, rest, w).1;
      if t.a.Emit? {
        Pushed(t.a, t.rest, at);
      }
    }
  }

  /** An action that neither decides nor records. */
  lemma DoStamps(bus: Bus, a: Act, rest: Todo, w: World, at: int)
    requires Ok(w) && Fits(a, w) && !a.Stamp? && !Decides(a, w)
    ensures var (w', t) := Do(bus, a, rest, w);
            w'.env.lastRequest == w.env.lastRequest && SameStamps(Next(a, rest), t, at)
  {
    Pushed(a, rest, at);
    match a
    case Emit(m) => CallsStamp(HandlersOf(bus, m.Id()), m, rest, at);
    case Call(c, m) =>
      BeginStamps(c, m, rest, w, at);
      hide Begin, Ok;
    case Check(x) =>
      CheckStamps(x, rest, w, at);
      hide CheckNode, Ok;
    case _ => hide Ok;
  }

  /** A decision starts the reading of this moment. */
  lemma DecisionStamps(bus: Bus, a: Act, rest: Todo, w: World)
    requires Ok(w) && Fits(a, w) && Decides(a, w) && !Stamping(rest)
    ensures var (w', t) := Do(bus, a, rest, w); Stamping(t) && Stamps(t, w.now) && w'.env == w.env
  {
    hide Ok, Lookup;
    NoStamps(rest, w.now);
    assert Stamps(Leave(EnvL, rest), w.now);
    assert Stamps(Next(Stamp(w.now), Leave(EnvL, rest)), w.now) && Stamping(Next(Stamp(w.now), Leave(EnvL, rest)));
  }

  // ---- every run -------------------------------------------------------------------------------------

  predicate NobodyStamps(s: Sys) {
    forall i | 0 <= i < |s.threads| :: !Stamping(s.threads[i])
  }

  /** The last decision is recorded, or under way. */
  predicate Tracked(s: Sys, last: int) {
    && (forall i | 0 <= i < |s.threads| :: Stamps(s.threads[i], last))
    && (NobodyStamps(s) ==> s.w.env.lastRequest == last)
  }

  /** A thread that can decide finds everything recorded: it will hold the service's lock, and nobody else does. */
  lemma DecisionIsAlone(s: Sys, i: nat)
    requires AllOrdered(s) && i < |s.threads| && Enabled(s, i) && Decides(s.threads[i].a, s.w)
    ensures NobodyStamps(s) && !Stamping(s.threads[i].rest)
  {
    var t := s.threads[i];
    assert Allowed(t.a, t.rest);
    assert Locks(t) == Locks(t.rest) == {AutoL} && !Stamping(t.rest) by {
      if Stamping(t.rest) {
        StampingHolds(t.rest);
      }
    }
    forall j | 0 <= j < |s.threads| ensures !Stamping(s.threads[j]) {
      if Stamping(s.threads[j]) {
        StampingHolds(s.threads[j]);
      }
    }
  }

  lemma TakeTracks(bus: Bus, s: Sys, i: nat, last: int)
    requires AllOrdered(s) && Sane(s) && i < |s.threads| && Enabled(s, i) && Tracked(s, last)
    ensures var a := s.threads[i].a;
            && (Decides(a, s.w) ==> s.w.now - last > THROTTLE)
            && Tracked(Taken(bus, s, i), if Decides(a, s.w) then s.w.now else last)
  {
    if Decides(s.threads[i].a, s.w) {
      DecisionTracks(bus, s, i, last);
    } else if s.threads[i].a.Stamp? {
      StampTracks(bus, s, i, last);
    } else {
      QuietTracks(bus, s, i, last);
    }
  }

  lemma DecisionTracks(bus: Bus, s: Sys, i: nat, last: int)
    requires AllOrdered(s) && Sane(s) && i < |s.threads| && Enabled(s, i) && Tracked(s, last)
             && Decides(s.threads[i].a, s.w)
    ensures s.w.now - last > THROTTLE && Tracked(Taken(bus, s, i), s.w.now)
  {
    DecisionIsAlone(s, i);
    DecisionStamps(bus, s.threads[i].a, s.threads[i].rest, s.w);
    forall j | 0 <= j < |s.threads| ensures Stamps(s.threads[j], s.w.now) {
      NoStamps(s.threads[j], s.w.now);
    }
    hide Do, Ok, Enabled, Ordered, Stamps, Stamping, Lookup;
    assert Stamping(Taken(bus, s, i).threads[i]);
  }

  lemma StampTracks(bus: Bus, s: Sys, i: nat, last: int)
    requires Sane(s) && i < |s.threads| && s.threads[i].Next? && Tracked(s, last) && s.threads[i].a.Stamp?
    ensures Tracked(Taken(bus, s, i), last)
  {
    assert Stamps(s.threads[i], last);
    hide Ok, Stamping;
  }

  lemma QuietTracks(bus: Bus, s: Sys, i: nat, last: int)
    requires Sane(s) && i < |s.threads| && s.threads[i].Next? && Tracked(s, last)
    requires !s.threads[i].a.Stamp? && !Decides(s.threads[i].a, s.w)
    ensures Tracked(Taken(bus, s, i), last)
  {
    DoStamps(bus, s.threads[i].a, s.threads[i].rest, s.w, last);
    hide Do, Ok, Fits, Stamping, Stamps, Decides;
    SameTracked(s, Taken(bus, s, i), i, last);
  }

  lemma SameTracked(s: Sys, s': Sys, i: nat, last: int)
    requires Tracked(s, last) && i < |s.threads| == |s'.threads| && s'.w.env.lastRequest == s.w.env.lastRequest
    requires SameStamps(s.threads[i], s'.threads[i], last)
    requires forall j | 0 <= j < |s.threads| && j != i :: s'.threads[j] == s.threads[j]
    ensures Tracked(s', last)
  {
    hide Stamping, Stamps;
    if NobodyStamps(s') {
      forall j | 0 <= j < |s.threads| ensures !Stamping(s.threads[j]) {
        assert !Stamping(s'.threads[j]);
      }
    }
  }

  lemma StepTracks(bus: Bus, s: Sys, mv: Move, s': Sys, last: int)
    requires AllOrdered(s) && Step(bus, s, mv, s') && Tracked(s, last)
    ensures Reading(s, mv) != [] ==> s.w.now - last > THROTTLE
    ensures Tracked(s', LastOf(last, Reading(s, mv)))
  {
    if mv.Take? {
      TakeTracks(bus, s, mv.i, last);
    } else if mv.Submit? {
      Pushed(mv.a, Nil, last);
      hide Stamping, Stamps, Sane;
      SameTracked(s, s', mv.i, last);
    } else if mv.Speak? {
      Pushed(Say, s.threads[mv.i], last);
      hide Stamping, Stamps, Sane, Locks;
      SameTracked(s, s', mv.i, last);
    } else {
      hide Stamping, Stamps, Sane;
      assert s'.threads == s.threads;
    }
  }

  lemma IdleTracks(s: Sys)
    requires Idle(s)
    ensures Tracked(s, s.w.env.lastRequest)
  {
  }

  /**
    In every interleaving, consecutive decisions on an external request read the clock more than 500 ms apart,
    and the requests published, or about to be, are exactly the decisions.
   */
  lemma {:induction false} RunsAreThrottled(bus: Bus, states: seq<Sys>, moves: seq<Move>, k: nat)
    requires Wired(bus) && Run(bus, states, moves) && Idle(states[0]) && k < |states|
    ensures var readings := Readings(states, moves, k);
            && Spaced(readings)
            && Tracked(states[k], LastOf(states[0].w.env.lastRequest, readings))
            && Total(states[k], EnvironmentRequest) == Count(states[0].w.sent, EnvironmentRequest) + |readings|
  {
    hide Tracked, Can, Make, Sane, Total, Reading;
    if k == 0 {
      IdleTracks(states[0]);
      IdleRequests(states[0]);
    } else {
      RunsAreThrottled(bus, states, moves, k - 1);
      RunsKeepOrder(bus, states, moves, k - 1);
      assert Step(bus, states[k - 1], moves[k - 1], states[k]);
      hide Step, AllOrdered, Wired;
      ThrottleStep(bus, states[k - 1], moves[k - 1], states[k], states[0].w.env.lastRequest,
        Readings(states, moves, k - 1));
    }
  }

  lemma ThrottleStep(bus: Bus, s: Sys, mv: Move, s': Sys, start: int, readings: seq<int>)
    requires AllOrdered(s) && Step(bus, s, mv, s') && Tracked(s, LastOf(start, readings)) && Spaced(readings)
    ensures var more := readings + Reading(s, mv);
            && Spaced(more) && Tracked(s', LastOf(start, more))
            && Total(s', EnvironmentRequest) == Total(s, EnvironmentRequest) + |Reading(s, mv)|
  {
    hide AllOrdered, Step, Tracked, Total, Reading;
    StepTracks(bus, s, mv, s', LastOf(start, readings));
    StepTotal(bus, s, mv, s', EnvironmentRequest);
    OneReading(s, mv, s');
    if Reading(s, mv) == [] {
      assert readings + [] == readings;
    }
  }

  lemma IdleRequests(s: Sys)
    requires Idle(s)
    ensures Total(s, EnvironmentRequest) == Count(s.w.sent, EnvironmentRequest)
  {
    IdlePends(s, EnvironmentRequest);
  }

  lemma OneReading(s: Sys, mv: Move, s': Sys)
    ensures CreatedBy(s, mv, s', EnvironmentRequest) == |Reading(s, mv)|
    ensures Reading(s, mv) == [] || Reading(s, mv) == [s.w.now]
  {
  }

  /** Any k >= 2 decisions of a run span more than 500 (k - 1) ms, from the i-th to the j-th. */
  lemma {:induction false} DecisionsSpan(readings: seq<int>, i: nat, j: nat)
    requires Spaced(readings) && i < j < |readings|
    ensures readings[j] - readings[i] > THROTTLE * (j - i)
    decreases j - i
  {
    assert readings[j] - readings[j - 1] > THROTTLE;
    if i < j - 1 {
      DecisionsSpan(readings, i, j - 1);
    }
  }

  lemma RunDecisionsSpan(bus: Bus, states: seq<Sys>, moves: seq<Move>, k: nat, i: nat, j: nat)
    requires Wired(bus) && Run(bus, states, moves) && Idle(states[0]) && k < |states|
    requires i < j < |Readings(states, moves, k)|
    ensures Readings(states, moves, k)[j] - Readings(states, moves, k)[i] > THROTTLE * (j - i)
  {
    RunsAreThrottled(bus, states, moves, k);
    DecisionsSpan(Readings(states, moves, k), i, j);
  }
}
