/** The controller's environment at a node check, over every interleaving of the threads. */
module ThreadFollows {
  import opened Wrappers
  import opened Messages
  import opened Motor
  import opened Physics
  import opened Environment
  import opened Route
  import opened Mesh
  import opened MeshRoute
  import opened Threads
  import opened ThreadOrder
  import opened ThreadTraffic
  import opened ThreadCache

  // ---- what a thread has yet to do about its sample --------------------------------------------------

  /** The point that an action will look up. */
  function LooksUp(a: Act): Option<(real, real)> {
    match a
    case Emit(MsgLookup(x, y)) => Some((x, y))
    case Call(_, MsgLookup(x, y)) => Some((x, y))
    case _ => None
  }

  /** The entry that an action will point the controller at. */
  function Announces(a: Act): Option<nat> {
    match a
    case Emit(MsgFound(entry)) => Some(entry)
    case Call(_, MsgFound(entry)) => Some(entry)
    case _ => None
  }

  /** A lookup is directly followed by the node check at the same position. */
  predicate Shaped(t: Todo) {
    t.Next? ==>
      && Shaped(t.rest)
      && (LooksUp(t.a).Some? ==> LooksUp(t.a).value.1 == 0.0 && t.rest.Next? && t.rest.a == Check(LooksUp(t.a).value.0))
  }

  /** The position of the node check to come. */
  function CheckAt(t: Todo): Option<real> {
    if t == Nil then None else if t.a.Check? then Some(t.a.x) else CheckAt(t.rest)
  }

  predicate Covered(a: AutoState, cache: seq<Region>, x: real) {
    a.env.Some? && a.env.value < |cache| && CoversX(cache[a.env.value], x)
  }

  /** If nothing else happens until the node check, a tuned route finds its position covered, or looks it up. */
  predicate Leads(t: Todo, a: AutoState, cache: seq<Region>) {
    if t == Nil || LooksUp(t.a).Some? then true
    else if t.a.Check? then a.cmd.tuning ==> Covered(a, cache, t.a.x)
    else if Announces(t.a).Some? then Leads(t.rest, a.(env := Announces(t.a)), cache)
    else Leads(t.rest, a, cache)
  }

  /** Actions that leave this alone. */
  predicate Neutral(a: Act) {
    LooksUp(a).None? && Announces(a).None? && !a.Check?
  }

  lemma Pushed(n: Act, t: Todo, a: AutoState, cache: seq<Region>)
    requires Neutral(n)
    ensures Leads(Next(n, t), a, cache) == Leads(t, a, cache) && CheckAt(Next(n, t)) == CheckAt(t)
    ensures Shaped(Next(n, t)) == Shaped(t)
  {
  }

  lemma {:induction false} CallsPushed(hs: seq<Component>, m: Msg, t: Todo, a: AutoState, cache: seq<Region>)
    requires !m.MsgLookup? && !m.MsgFound?
    ensures var calls := Calls(hs, m, t);
            Leads(calls, a, cache) == Leads(t, a, cache) && CheckAt(calls) == CheckAt(t) && Shaped(calls) == Shaped(t)
    decreases |hs|
  {
    hide Leads, CheckAt, Shaped;
    if hs != [] {
      var last := Call(hs[|hs| - 1], m);
      Pushed(last, t, a, cache);
      CallsPushed(hs[..|hs| - 1], m, Next(last, t), a, cache);
    }
  }

  lemma {:induction false} NothingLeads(t: Todo, a: AutoState, cache: seq<Region>)
    requires !Checking(t)
    ensures Leads(t, a, cache) && CheckAt(t) == None
  {
    if t.Next? {
      NothingLeads(t.rest, if Announces(t.a).Some? then a.(env := Announces(t.a)) else a, cache);
      NothingLeadsOn(t.rest);
    }
  }

  lemma {:induction false} NothingLeadsOn(t: Todo)
    requires !Checking(t)
    ensures CheckAt(t) == None
  {
    if t.Next? {
      NothingLeadsOn(t.rest);
    }
  }

  lemma {:induction false} CheckingAt(t: Todo)
    ensures Checking(t) <==> CheckAt(t).Some?
  {
    if t.Next? {
      CheckingAt(t.rest);
    }
  }

  /** Only the command's tuning, the pointer and the cache matter. */
  lemma {:induction false} SameLeads(t: Todo, a: AutoState, b: AutoState, cache: seq<Region>)
    requires a.cmd == b.cmd && a.env == b.env
    ensures Leads(t, a, cache) == Leads(t, b, cache)
  {
    if t.Next? {
      if Announces(t.a).Some? {
        SameLeads(t.rest, a.(env := Announces(t.a)), b.(env := Announces(t.a)), cache);
      } else {
        SameLeads(t.rest, a, b, cache);
      }
    }
  }

  // ---- one action ------------------------------------------------------------------------------------

  /** A thread starts a sample. */
  predicate Starts(a: Act) { a.Call? && a.c == AutonomousC && a.m.MsgKinematics? }

  /** No cached region covers (x, 0). */
  predicate Misses(a: Act, w: World, x: real) {
    a == Call(EnvironmentC, MsgLookup(x, 0.0)) && Lookup(w.env.cache, x, 0.0).None?
  }

  /** The thread's own action keeps it on its way, starts anew, or misses. */
  predicate GoesOn(a: Act, rest: Todo, w: World, w': World, t: Todo) {
    && (Checking(t) ==> CheckAt(t).Some?)
    && (Checking(t) && !Starts(a) ==> CheckAt(t) == CheckAt(Next(a, rest)))
    && (Checking(t) && !Starts(a) && Leads(Next(a, rest), w.auto, w.env.cache) ==>
          Misses(a, w, CheckAt(t).value) || Leads(t, w'.auto, w'.env.cache))
    && (Starts(a) ==> Leads(t, w'.auto, w'.env.cache))
  }

  /** Nothing on the way changes, and the thread's todo means the same. */
  predicate SameWay(rest: Todo, w: World, w': World, t: Todo) {
    && w'.auto.cmd == w.auto.cmd && w'.auto.env == w.auto.env && w'.env.cache == w.env.cache
    && CheckAt(t) == CheckAt(rest) && Shaped(t) == Shaped(rest)
    && Leads(t, w.auto, w.env.cache) == Leads(rest, w.auto, w.env.cache)
  }

  lemma SameGoesOn(a: Act, rest: Todo, w: World, w': World, t: Todo)
    requires SameWay(rest, w, w', t) && Neutral(a) && !Starts(a)
    ensures GoesOn(a, rest, w, w', t)
  {
    Pushed(a, rest, w.auto, w.env.cache);
    SameLeads(t, w.auto, w'.auto, w.env.cache);
    CheckingAt(t);
    hide Leads, CheckAt, Checking, Shaped;
  }

  /** A todo without a check goes on trivially. */
  lemma IdleGoesOn(a: Act, rest: Todo, w: World, w': World, t: Todo)
    requires !Checking(t)
    ensures GoesOn(a, rest, w, w', t)
  {
    NothingLeads(t, w'.auto, w'.env.cache);
    hide Leads, CheckAt, Checking, Misses, Starts;
  }

  lemma EmitGoesOn(bus: Bus, m: Msg, rest: Todo, w: World)
    requires Ok(w) && MsgOk(m, w) && Wired(bus) && Shaped(Next(Emit(m), rest))
    ensures var (w', t) := Do(bus, Emit(m), rest, w); GoesOn(Emit(m), rest, w, w', t) && Shaped(t)
  {
    hide *;
    if m.MsgLookup? || m.MsgFound? {
      SoleEmitGoesOn(bus, m, rest, w);
    } else {
      PlainEmitGoesOn(bus, m, rest, w);
    }
  }

  lemma PlainEmitGoesOn(bus: Bus, m: Msg, rest: Todo, w: World)
    requires Ok(w) && MsgOk(m, w) && !m.MsgLookup? && !m.MsgFound? && Shaped(Next(Emit(m), rest))
    ensures var (w', t) := Do(bus, Emit(m), rest, w); GoesOn(Emit(m), rest, w, w', t) && Shaped(t)
  {
    var hs := HandlersOf(bus, m.Id());
    assert Shaped(rest);
    hide Ok, Leads, CheckAt, Checking, Calls, HandlersOf, GoesOn, Shaped, Msg.Id;
    CallsPushed(hs, m, rest, w.auto, w.env.cache);
    SameGoesOn(Emit(m), rest, w, Do(bus, Emit(m), rest, w).0, Calls(hs, m, rest));
  }

  lemma SoleEmitGoesOn(bus: Bus, m: Msg, rest: Todo, w: World)
    requires Ok(w) && MsgOk(m, w) && Wired(bus) && (m.MsgLookup? || m.MsgFound?) && Shaped(Next(Emit(m), rest))
    ensures var (w', t) := Do(bus, Emit(m), rest, w); GoesOn(Emit(m), rest, w, w', t) && Shaped(t)
  {
    var c := if m.MsgLookup? then EnvironmentC else AutonomousC;
    SoleHandler(bus, m.Id(), c);
    hide Ok, Leads, CheckAt, Checking, Calls, HandlersOf, GoesOn, Shaped, Wired;
    SoleGoesOn(c, m, rest, w, Do(bus, Emit(m), rest, w).0);
  }

  lemma SoleGoesOn(c: Component, m: Msg, rest: Todo, w: World, w': World)
    requires (m.MsgLookup? || m.MsgFound?) && Shaped(Next(Emit(m), rest)) && w'.auto == w.auto && w'.env == w.env
    ensures var t := Calls([c], m, rest); Shaped(t) && GoesOn(Emit(m), rest, w, w', t)
  {
    var t := Next(Call(c, m), rest);
    assert [c][..0] == [] && Calls([c], m, rest) == t;
    assert Shaped(t) && CheckAt(t) == CheckAt(rest);
    assert Leads(t, w.auto, w.env.cache) == Leads(Next(Emit(m), rest), w.auto, w.env.cache);
    CheckingAt(t);
  }

  lemma OtherKeeps(c: Component, m: Msg, rest: Todo, w: World)
    requires Ok(w) && MsgOk(m, w) && c != AutonomousC && c != EnvironmentC
    ensures Begin(c, m, rest, w).0.auto == w.auto
  {
    hide Ok, OnSequence, OnTick, Heat, Integrate, KinOnStatus, PowerOnStatus;
  }

  /** The other handlers answer, or publish a status, and release their lock. */
  lemma OtherAnswers(c: Component, m: Msg, rest: Todo, w: World)
    requires Ok(w) && MsgOk(m, w) && c != AutonomousC && c != EnvironmentC
    ensures var t := Begin(c, m, rest, w).1;
            t.Next? && Neutral(t.a) && (t.rest == rest || t.rest == Leave(LockOf(c), rest))
  {
    hide Ok, OnSequence, OnTick, Quiet;
  }

  lemma OtherGoesOn(c: Component, m: Msg, rest: Todo, w: World)
    requires Ok(w) && MsgOk(m, w) && c != AutonomousC && c != EnvironmentC && m.Id() in Subscribes(c) && Shaped(rest)
    ensures var (w', t) := Begin(c, m, rest, w); GoesOn(Call(c, m), rest, w, w', t) && Shaped(t)
  {
    var (w', t) := Begin(c, m, rest, w);
    OtherKeeps(c, m, rest, w);
    OtherStores(c, m, rest, w);
    OtherAnswers(c, m, rest, w);
    Elsewhere(c, m);
    hide Ok, Begin, Leads, CheckAt, Shaped, GoesOn, Subscribes, Msg.Id, Neutral;
    Pushed(Unlock(LockOf(c)), rest, w.auto, w.env.cache);
    Pushed(t.a, t.rest, w.auto, w.env.cache);
    SameGoesOn(Call(c, m), rest, w, w', t);
  }

  lemma Elsewhere(c: Component, m: Msg)
    requires c != AutonomousC && c != EnvironmentC && m.Id() in Subscribes(c)
    ensures Neutral(Call(c, m)) && !Starts(Call(c, m)) && Neutral(Unlock(LockOf(c)))
  {
  }

  /** A hit leads to an entry that covers the position; a miss is one. */
  lemma LookupGoesOn(m: Msg, rest: Todo, w: World)
    requires Ok(w) && MsgOk(m, w) && m.MsgLookup? && Shaped(Next(Call(EnvironmentC, m), rest))
    ensures var a := Call(EnvironmentC, m);
            var (w', t) := Begin(EnvironmentC, m, rest, w); GoesOn(a, rest, w, w', t) && Shaped(t)
  {
    var t := Begin(EnvironmentC, m, rest, w).1;
    var cache, leave := w.env.cache, Leave(EnvL, rest);
    hide Ok, Lookup;
    Pushed(Unlock(EnvL), rest, w.auto, cache);
    var hit := Lookup(cache, m.x, m.y);
    if hit.Some? {
      var there := w.auto.(env := hit);
      assert CoversX(cache[hit.value], m.x);
      Pushed(Unlock(EnvL), rest, there, cache);
      assert Leads(rest, there, cache);
      assert Leads(t, w.auto, cache) && CheckAt(t) == Some(m.x);
    } else {
      Pushed(Stamp(w.now), leave, w.auto, cache);
      Pushed(Emit(MsgRegionRequest(m.x, m.y)), Next(Stamp(w.now), leave), w.auto, cache);
      assert CheckAt(t) == Some(m.x);
    }
  }

  /** Storing a region is no part of a sample. */
  lemma RegionGoesOn(m: Msg, rest: Todo, w: World)
    requires Ok(w) && MsgOk(m, w) && m.MsgRegion? && !Checking(rest) && Shaped(rest)
    ensures var (w', t) := Begin(EnvironmentC, m, rest, w); GoesOn(Call(EnvironmentC, m), rest, w, w', t) && Shaped(t)
  {
    var (w', t) := Begin(EnvironmentC, m, rest, w);
    AckOutside(m.region.id, rest);
    hide Ok, Store, GoesOn, Leads, CheckAt, Shaped, Checking;
    IdleGoesOn(Call(EnvironmentC, m), rest, w, w', t);
  }

  lemma AckOutside(id: uint32, rest: Todo)
    requires !Checking(rest) && Shaped(rest)
    ensures var t := Next(Emit(MsgRegionAck(id)), Leave(EnvL, rest)); !Checking(t) && Shaped(t)
  {
    assert Shaped(Leave(EnvL, rest)) && !Checking(Leave(EnvL, rest));
  }

  lemma SampleGoesOn(m: Msg, rest: Todo, w: World)
    requires Ok(w) && MsgOk(m, w) && m.MsgKinematics? && !Checking(rest) && Shaped(rest)
    ensures var (w', t) := Begin(AutonomousC, m, rest, w); GoesOn(Call(AutonomousC, m), rest, w, w', t) && Shaped(t)
  {
    var (w', t) := Begin(AutonomousC, m, rest, w);
    var x := Metres(m.kin.position);
    assert w.auto.env.Some? ==> w.auto.env.value < |w.env.cache|;
    hide RouteOk, Motor.Valid, Metres;
    CheckingAt(t);
    var leave := Leave(AutoL, rest);
    assert !Checking(leave) && Shaped(leave) && Shaped(Next(Check(x), leave));
    if !Checking(t) {
      NothingLeads(t, w'.auto, w'.env.cache);
    }
  }

  /** The announced entry becomes the current one. */
  lemma FoundGoesOn(m: Msg, rest: Todo, w: World)
    requires Ok(w) && MsgOk(m, w) && m.MsgFound? && Shaped(rest)
    ensures var (w', t) := Begin(AutonomousC, m, rest, w); GoesOn(Call(AutonomousC, m), rest, w, w', t) && Shaped(t)
  {
    var (w', t) := Begin(AutonomousC, m, rest, w);
    hide RouteOk, Motor.Valid, NodeSequence, Leads, CheckAt, Shaped;
    FoundDrives(m, rest, w);
    var there := w.auto.(env := Some(m.entry));
    Pushed(Unlock(AutoL), rest, there, w.env.cache);
    Pushed(t.a, t.rest, there, w.env.cache);
    SameLeads(t, there, w'.auto, w.env.cache);
    FoundMeans(m, rest, w.auto, w.env.cache);
    CheckingAt(t);
  }

  lemma FoundDrives(m: Msg, rest: Todo, w: World)
    requires Ok(w) && MsgOk(m, w) && m.MsgFound?
    ensures var (w', t) := Begin(AutonomousC, m, rest, w);
            && w'.auto.cmd == w.auto.cmd && w'.auto.env == Some(m.entry) && w'.env == w.env
            && t.Next? && Neutral(t.a) && (t == Leave(AutoL, rest) || t.rest == Leave(AutoL, rest))
  {
    hide RouteOk, Motor.Valid, NodeSequence;
  }

  lemma FoundMeans(m: Msg, rest: Todo, a: AutoState, cache: seq<Region>)
    requires m.MsgFound?
    ensures Leads(Next(Call(AutonomousC, m), rest), a, cache) == Leads(rest, a.(env := Some(m.entry)), cache)
    ensures CheckAt(Next(Call(AutonomousC, m), rest)) == CheckAt(rest)
  {
  }

  /** A command, a tick or a measurement comes outside of every sample. */
  lemma OutsideGoesOn(m: Msg, rest: Todo, w: World)
    requires Ok(w) && MsgOk(m, w) && !m.MsgKinematics? && !m.MsgFound? && !Checking(rest) && Shaped(rest)
    ensures var (w', t) := Begin(AutonomousC, m, rest, w); GoesOn(Call(AutonomousC, m), rest, w, w', t) && Shaped(t)
  {
    var (w', t) := Begin(AutonomousC, m, rest, w);
    hide Ok, NodeSequence, Start, Quiet, GoesOn, Leads, CheckAt;
    var leave := Leave(AutoL, rest);
    assert !Checking(leave) && Shaped(leave);
    assert !Checking(Next(Emit(MsgPowerRequest), leave)) && Shaped(Next(Emit(MsgPowerRequest), leave));
    IdleGoesOn(Call(AutonomousC, m), rest, w, w', t);
  }

  lemma CheckGoesOn(x: real, rest: Todo, w: World)
    requires Ok(w) && w.auto.active && !Checking(rest) && Shaped(rest)
    ensures var (w', t) := CheckNode(x, rest, w); GoesOn(Check(x), rest, w, w', t) && Shaped(t)
  {
    var (w', t) := CheckNode(x, rest, w);
    hide Ok, NodeSequence, Reached, GoesOn, Leads, CheckAt;
    var record := Next(Record(x), rest);
    assert !Checking(record) && Shaped(record);
    assert !Checking(Next(Emit(MsgSequence(STOP)), record)) && Shaped(Next(Emit(MsgSequence(STOP)), record));
    IdleGoesOn(Check(x), rest, w, w', t);
  }

  /** What of a message's handling can fall into a sample. */
  lemma AllowedOutside(c: Component, m: Msg, rest: Todo)
    requires Allowed(Call(c, m), rest) && Ordered(rest)
    requires (c == EnvironmentC && m.MsgRegion?) || (c == AutonomousC && !m.MsgFound?)
    ensures !Checking(rest)
  {
    if Checking(rest) {
      CheckingHolds(rest);
    }
  }

  lemma CallGoesOn(c: Component, m: Msg, rest: Todo, w: World)
    requires Ok(w) && MsgOk(m, w) && Allowed(Call(c, m), rest) && Ordered(rest) && Shaped(Next(Call(c, m), rest))
    ensures var (w', t) := Begin(c, m, rest, w); GoesOn(Call(c, m), rest, w, w', t) && Shaped(t)
  {
    assert Shaped(rest) && m.Id() in Subscribes(c);
    if (c == EnvironmentC && m.MsgRegion?) || (c == AutonomousC && !m.MsgFound?) {
      AllowedOutside(c, m, rest);
    }
    assert c == EnvironmentC ==> m.MsgRegion? || m.MsgLookup?;
    hide Ok, Begin, GoesOn, Shaped, Ordered, Allowed, Checking, Subscribes, Msg.Id;
    if c == EnvironmentC {
      if m.MsgRegion? {
        RegionGoesOn(m, rest, w);
      } else {
        LookupGoesOn(m, rest, w);
      }
    } else if c != AutonomousC {
      OtherGoesOn(c, m, rest, w);
    } else if m.MsgKinematics? {
      SampleGoesOn(m, rest, w);
    } else if m.MsgFound? {
      FoundGoesOn(m, rest, w);
    } else {
      OutsideGoesOn(m, rest, w);
    }
  }

  lemma DoGoesOn(bus: Bus, a: Act, rest: Todo, w: World)
    requires Ok(w) && Fits(a, w) && Wired(bus) && Allowed(a, rest) && Ordered(rest) && Shaped(Next(a, rest))
    ensures var (w', t) := Do(bus, a, rest, w); GoesOn(a, rest, w, w', t) && Shaped(t)
  {
    match a
    case Emit(m) => EmitGoesOn(bus, m, rest, w);
    case Call(c, m) => CallGoesOn(c, m, rest, w);
    case Check(x) => CheckGoesOn(x, rest, w);
    case _ => ShortGoesOn(bus, a, rest, w);
  }

  lemma ShortGoesOn(bus: Bus, a: Act, rest: Todo, w: World)
    requires Ok(w) && Fits(a, w) && !a.Emit? && !a.Call? && !a.Check? && Shaped(rest)
    ensures var (w', t) := Do(bus, a, rest, w); GoesOn(a, rest, w, w', t) && Shaped(t)
  {
    var (w', t) := Do(bus, a, rest, w);
    hide Ok, Leads, CheckAt, Checking, GoesOn, Shaped;
    Pushed(Unlock(LogL), rest, w.auto, w.env.cache);
    Pushed(Emit(MsgTick(Snapshot(w.state))), rest, w.auto, w.env.cache);
    SameGoesOn(a, rest, w, w', t);
  }

  // ---- every run -------------------------------------------------------------------------------------

  predicate AllShaped(s: Sys) {
    forall i | 0 <= i < |s.threads| :: Shaped(s.threads[i])
  }

  lemma StepShaped(bus: Bus, s: Sys, mv: Move, s': Sys)
    requires Wired(bus) && AllOrdered(s) && AllShaped(s) && Step(bus, s, mv, s')
    ensures AllShaped(s')
  {
    if mv.Take? {
      var t := s.threads[mv.i];
      assert Allowed(t.a, t.rest) && Ordered(t.rest) && Shaped(t);
      DoGoesOn(bus, t.a, t.rest, s.w);
      hide Do, Sane, Enabled, Shaped, GoesOn, Ordered, Allowed, Wired;
    } else {
      hide Sane, Ordered;
      assert mv.Submit? ==> Shaped(Next(mv.a, Nil));
      assert mv.Speak? ==> Shaped(Next(Say, s.threads[mv.i]));
    }
  }

  predicate StartsSample(s: Sys, mv: Move, i: nat) {
    mv == Take(i) && TakenAct(s, mv).Some? && Starts(TakenAct(s, mv).value)
  }

  /** Another thread stores a region. */
  predicate Interferes(s: Sys, mv: Move, i: nat) {
    mv.Take? && mv.i != i && TakenAct(s, mv).Some? && StoredBy(TakenAct(s, mv).value) != []
  }

  /** The thread looks (x, 0) up, and no cached region covers it. */
  predicate MissesAt(s: Sys, mv: Move, i: nat, x: real) {
    mv == Take(i) && TakenAct(s, mv).Some? && Misses(TakenAct(s, mv).value, s.w, x)
  }

  /** Since thread `i` last started a sample: a lookup of (x, 0) missed, or another thread stored a region. */
  predicate Excused(states: seq<Sys>, moves: seq<Move>, k: nat, i: nat, x: real)
    requires k <= |moves| < |states|
  {
    k > 0 && !StartsSample(states[k - 1], moves[k - 1], i)
    && (Excused(states, moves, k - 1, i, x)
        || Interferes(states[k - 1], moves[k - 1], i) || MissesAt(states[k - 1], moves[k - 1], i, x))
  }

  predicate LeadsAt(s: Sys, i: nat)
    requires i < |s.threads|
  {
    Leads(s.threads[i], s.w.auto, s.w.env.cache)
  }

  lemma OwnStep(bus: Bus, s: Sys, s': Sys, i: nat)
    requires Wired(bus) && AllOrdered(s) && AllShaped(s) && Step(bus, s, Take(i), s') && i < |s.threads|
    requires Checking(s'.threads[i])
    ensures |s'.threads| == |s.threads| && CheckAt(s'.threads[i]).Some?
    ensures StartsSample(s, Take(i), i) ==> LeadsAt(s', i)
    ensures !StartsSample(s, Take(i), i) ==>
              && Checking(s.threads[i]) && CheckAt(s.threads[i]) == CheckAt(s'.threads[i])
              && (LeadsAt(s, i) ==> MissesAt(s, Take(i), i, CheckAt(s'.threads[i]).value) || LeadsAt(s', i))
  {
    var t := s.threads[i];
    assert Allowed(t.a, t.rest) && Ordered(t.rest) && Shaped(t);
    DoGoesOn(bus, t.a, t.rest, s.w);
    CheckingAt(t);
    hide Do, Sane, Enabled, Shaped, Leads, CheckAt, Checking, Ordered, Allowed, Wired, Misses, Starts;
  }

  /** Only AutonomousService's handlers change the pointer or the command. */
  lemma DoKeepsPointer(bus: Bus, a: Act, rest: Todo, w: World)
    requires Ok(w) && Fits(a, w) && !(a.Call? && a.c == AutonomousC)
    ensures var w' := Do(bus, a, rest, w).0; w'.auto.cmd == w.auto.cmd && w'.auto.env == w.auto.env
  {
    match a
    case Call(c, m) =>
      hide Ok;
      if c == EnvironmentC {
        EnvironmentKeeps(m, rest, w);
      } else {
        OtherKeeps(c, m, rest, w);
      }
      hide Begin;
    case Check(x) => hide Ok, NodeSequence, Reached;
    case _ => hide Ok, Calls;
  }

  lemma EnvironmentKeeps(m: Msg, rest: Todo, w: World)
    requires Ok(w) && MsgOk(m, w)
    ensures Begin(EnvironmentC, m, rest, w).0.auto == w.auto
  {
    hide Ok, Lookup, Store;
  }

  lemma OtherTake(bus: Bus, s: Sys, j: nat, s': Sys, i: nat)
    requires AllOrdered(s) && Step(bus, s, Take(j), s') && i < |s.threads| && i != j && Checking(s.threads[i])
    ensures |s'.threads| == |s.threads| && s'.threads[i] == s.threads[i]
    ensures Interferes(s, Take(j), i) || LeadsAt(s', i) == LeadsAt(s, i)
  {
    CheckingHolds(s.threads[i]);
    var t := s.threads[j];
    DoKeepsPointer(bus, t.a, t.rest, s.w);
    DoStores(bus, t.a, t.rest, s.w);
    SameLeads(s.threads[i], s.w.auto, s'.w.auto, s.w.env.cache);
    hide Do, Sane, Leads, Checking, Ordered, Store;
  }

  lemma OtherStep(bus: Bus, s: Sys, mv: Move, s': Sys, i: nat)
    requires AllOrdered(s) && Step(bus, s, mv, s') && i < |s.threads| && mv != Take(i)
    requires |s'.threads| == |s.threads| && Checking(s'.threads[i])
    ensures Checking(s.threads[i]) && CheckAt(s'.threads[i]) == CheckAt(s.threads[i]) && CheckAt(s'.threads[i]).Some?
    ensures Interferes(s, mv, i) || LeadsAt(s', i) == LeadsAt(s, i)
  {
    CheckingAt(s'.threads[i]);
    CheckingAt(s.threads[i]);
    if mv.Take? {
      TakesOther(bus, s, mv.i, s', i);
      OtherTake(bus, s, mv.i, s', i);
    } else if mv.Speak? && mv.i == i {
      Pushed(Say, s.threads[i], s.w.auto, s.w.env.cache);
      hide Sane, Leads, Checking, CheckAt, AllOrdered, Locks;
    } else {
      hide Sane, Leads, AllOrdered, Locks;
      assert mv.Submit? ==> !Checking(Next(mv.a, Nil));
    }
  }

  lemma TakesOther(bus: Bus, s: Sys, j: nat, s': Sys, i: nat)
    requires Step(bus, s, Take(j), s') && i < |s.threads| && i != j
    ensures |s'.threads| == |s.threads| && s'.threads[i] == s.threads[i]
  {
    hide Do, Sane, Enabled;
  }

  lemma SameThreads(bus: Bus, s: Sys, mv: Move, s': Sys)
    requires Step(bus, s, mv, s')
    ensures |s'.threads| == |s.threads|
  {
    hide Do, Sane, Enabled;
  }

  /** Whoever is on the way to a node check is excused, or finds its position covered there or looks it up. */
  lemma {:induction false} RunsLead(bus: Bus, states: seq<Sys>, moves: seq<Move>, k: nat, i: nat)
    requires Wired(bus) && Run(bus, states, moves) && Idle(states[0]) && k < |states| && i < |states[0].threads|
    ensures |states[k].threads| == |states[0].threads| && AllShaped(states[k])
    ensures Checking(states[k].threads[i]) ==>
              && CheckAt(states[k].threads[i]).Some?
              && (Excused(states, moves, k, i, CheckAt(states[k].threads[i]).value) || LeadsAt(states[k], i))
  {
    hide Wired, Step, Leads, LeadsAt, CheckAt, Checking, AllShaped, StartsSample, Interferes, MissesAt;
    if k == 0 {
      IdleLeads(states[0], i);
    } else {
      RunsLead(bus, states, moves, k - 1, i);
      RunsKeepOrder(bus, states, moves, k - 1);
      var s, mv, s' := states[k - 1], moves[k - 1], states[k];
      assert Step(bus, s, mv, s');
      hide AllOrdered;
      StepShaped(bus, s, mv, s');
      SameThreads(bus, s, mv, s');
      if Checking(s'.threads[i]) {
        if mv == Take(i) {
          OwnStep(bus, s, s', i);
        } else {
          OtherStep(bus, s, mv, s', i);
          StartsNot(s, mv, i);
        }
      }
    }
  }

  lemma StartsNot(s: Sys, mv: Move, i: nat)
    requires mv != Take(i)
    ensures !StartsSample(s, mv, i)
  {
  }

  lemma IdleLeads(s: Sys, i: nat)
    requires Idle(s) && i < |s.threads|
    ensures AllShaped(s) && !Checking(s.threads[i])
  {
  }

  /**
    In every interleaving, when a tuned route checks its node at `x`: the current environment is a cache entry
    whose x-range covers `x`; or, since this sample began, the lookup of (x, 0) found no cached region to cover
    it, or another thread stored a region.
   */
  lemma RunsFollow(bus: Bus, states: seq<Sys>, moves: seq<Move>, k: nat, i: nat, x: real)
    requires Wired(bus) && Run(bus, states, moves) && Idle(states[0]) && k < |moves| && moves[k] == Take(i)
    requires i < |states[k].threads| && states[k].threads[i].Next? && states[k].threads[i].a == Check(x)
    requires states[k].w.auto.cmd.tuning
    ensures Covered(states[k].w.auto, states[k].w.env.cache, x) || Excused(states, moves, k, i, x)
  {
    ThreadsStay(bus, states, moves, k);
    RunsLead(bus, states, moves, k, i);
    hide Wired, Step, Excused, Covered, AllShaped;
  }

  lemma {:induction false} ThreadsStay(bus: Bus, states: seq<Sys>, moves: seq<Move>, k: nat)
    requires Run(bus, states, moves) && k < |states|
    ensures |states[k].threads| == |states[0].threads|
  {
    hide Step;
    if k > 0 {
      ThreadsStay(bus, states, moves, k - 1);
      SameThreads(bus, states[k - 1], moves[k - 1], states[k]);
    }
  }

  /** What an excuse is: a move of the sample, which has not been started anew since. */
  lemma {:induction false} ExcuseIs(states: seq<Sys>, moves: seq<Move>, k: nat, i: nat, x: real) returns (j: nat)
    requires k <= |moves| < |states| && Excused(states, moves, k, i, x)
    ensures j < k && (Interferes(states[j], moves[j], i) || MissesAt(states[j], moves[j], i, x))
    ensures forall l | j <= l < k :: !StartsSample(states[l], moves[l], i)
  {
    hide StartsSample, Interferes, MissesAt;
    j := k - 1;
    if Excused(states, moves, k - 1, i, x) {
      j := ExcuseIs(states, moves, k - 1, i, x);
    }
  }
}
