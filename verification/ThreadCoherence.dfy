/**
  The cached motor state follows MotorService: coherence in every reachable state in which the motor's lock is free.
 */
module ThreadCoherence {
  import opened Wrappers
  import opened Messages
  import opened Motor
  import opened Physics
  import opened Route
  import opened Mesh
  import opened Threads
  import opened ThreadOrder
  import opened ThreadSafety

  /** When this thread releases the motor's lock, the cache will hold the current status. */
  predicate Settles(t: Todo, cur: Status, cache: StateCache) {
    t.Next? &&
    match t.a
    case Emit(MsgStatus(s)) => Settles(t.rest, cur, CacheStatus(s))
    case Call(c, MsgStatus(s)) => Settles(t.rest, cur, if c == StateC then CacheStatus(s) else cache)
    case Unlock(l) => if l == MotorL then cache == CacheStatus(cur) else Settles(t.rest, cur, cache)
    case Say => Settles(t.rest, cur, cache)
    case _ => false
  }

  predicate MotorFree(s: Sys) {
    forall i | 0 <= i < |s.threads| :: MotorL !in Locks(s.threads[i])
  }

  predicate Coherent(s: Sys)
    requires Motor.Valid(s.w.motor)
  {
    && (MotorFree(s) ==> s.w.state == CacheStatus(Current(s.w.motor)))
    && (forall i | 0 <= i < |s.threads| && MotorL in Locks(s.threads[i]) ::
       Settles(s.threads[i], Current(s.w.motor), s.w.state))
  }

  lemma {:induction false} CallsSettle(hs: seq<Component>, s: Status, rest: Todo, cur: Status, cache: StateCache)
    ensures Settles(Calls(hs, MsgStatus(s), rest), cur, cache)
            == Settles(rest, cur, if StateC in hs then CacheStatus(s) else cache)
    decreases |hs|
  {
    if hs != [] {
      var init, last := hs[..|hs| - 1], hs[|hs| - 1];
      assert hs == init + [last];
      CallsSettle(init, s, Next(Call(last, MsgStatus(s)), rest), cur, cache);
    }
  }

  /** The holder of the motor's lock, one action on. */
  lemma HolderGoesOn(bus: Bus, a: Act, rest: Todo, w: World, cur: Status)
    requires Wired(bus) && Ok(w) && Fits(a, w) && Allowed(a, rest)
    requires MotorL in Locks(Next(a, rest)) && Settles(Next(a, rest), cur, w.state)
    ensures var (w', t) := Do(bus, a, rest, w);
            if a == Unlock(MotorL) then w'.state == CacheStatus(cur) && MotorL !in Locks(t)
              else Settles(t, cur, w'.state)
  {
    hide Ok;
    match a
    case Emit(m) =>
      var hs := HandlersOf(bus, MotorStatus);
      assert Once(hs, StateC, MotorStatus in Subscribes(StateC));
      CallsSettle(hs, m.status, rest, cur, w.state);
    case Call(c, m) =>
    case _ =>
  }

  /** Accepting a sequence or stepping: the status still to be published is the new current one. */
  lemma MotorStartsSettling(m: Msg, rest: Todo, w: World)
    requires Ok(w) && MsgOk(m, w) && (m.MsgSequence? || m.MsgTick?)
    requires w.state == CacheStatus(Current(w.motor))
    ensures var (w', t) := Begin(MotorC, m, rest, w); Motor.Valid(w'.motor) && Settles(t, Current(w'.motor), w'.state)
  {
    var cmd, tick := if m.MsgSequence? then m.seq_ else w.motor.cmd, if m.MsgTick? then m.tick else Tick(0, 0, 0);
    HandlersKeepValid(w.motor, cmd, tick);
    hide Motor.Valid, OnSequence, OnTick, Current, RouteOk;
    assert forall cur, cache :: Settles(Leave(MotorL, rest), cur, cache) == (cache == CacheStatus(cur));
  }

  lemma TakeKeepsCoherent(bus: Bus, s: Sys, i: nat)
    requires Wired(bus) && AllOrdered(s) && Sane(s) && Coherent(s) && i < |s.threads| && Enabled(s, i)
    ensures var s' := Taken(bus, s, i); Ok(s'.w) && Coherent(s')
  {
    var a, rest := s.threads[i].a, s.threads[i].rest;
    DoOk(bus, a, rest, s.w);
    DoTouches(bus, a, rest, s.w);
    DoLocks(bus, a, rest, s.w);
    if a.Call? && a.c == MotorC {
      assert MotorFree(s);
      MotorStartsSettling(a.m, rest, s.w);
      AcquireKeeps(bus, s, i);
    } else if MotorL in Locks(s.threads[i]) {
      HolderGoesOn(bus, a, rest, s.w, Current(s.w.motor));
      HolderKeeps(bus, s, i);
    } else {
      BystanderKeeps(bus, s, i);
    }
  }

  lemma AcquireKeeps(bus: Bus, s: Sys, i: nat)
    requires AllOrdered(s) && Sane(s) && i < |s.threads| && Enabled(s, i) && MotorFree(s)
    requires s.threads[i].a.Call? && s.threads[i].a.c == MotorC
    requires var s' := Taken(bus, s, i);
             Motor.Valid(s'.w.motor) && Settles(s'.threads[i], Current(s'.w.motor), s'.w.state)
    ensures Coherent(Taken(bus, s, i))
  {
    hide Do, Ok, Current, Ordered, Allowed;
    var t := Taken(bus, s, i).threads[i];
    if MotorL !in Locks(t) {
      SettlesHolds(t, Current(Taken(bus, s, i).w.motor), Taken(bus, s, i).w.state);
    }
  }

  lemma {:induction false} SettlesHolds(t: Todo, cur: Status, cache: StateCache)
    requires Settles(t, cur, cache)
    ensures MotorL in Locks(t)
  {
    match t.a
    case Emit(MsgStatus(s)) => SettlesHolds(t.rest, cur, CacheStatus(s));
    case Call(c, MsgStatus(s)) => SettlesHolds(t.rest, cur, if c == StateC then CacheStatus(s) else cache);
    case Unlock(l) =>
      if l != MotorL {
        SettlesHolds(t.rest, cur, cache);
      }
    case Say => SettlesHolds(t.rest, cur, cache);
  }

  lemma HolderKeeps(bus: Bus, s: Sys, i: nat)
    requires AllOrdered(s) && Sane(s) && i < |s.threads| && s.threads[i].Next? && MotorL in Locks(s.threads[i])
    requires var s' := Taken(bus, s, i);
             && s'.w.motor == s.w.motor
             && var cur := Current(s.w.motor);
                if s.threads[i].a == Unlock(MotorL) then
                  s'.w.state == CacheStatus(cur) && MotorL !in Locks(s'.threads[i])
                else Settles(s'.threads[i], cur, s'.w.state)
    ensures Coherent(Taken(bus, s, i))
  {
    hide Do, RouteOk, Motor.Valid, Current, Ordered, Allowed;
    var s' := Taken(bus, s, i);
    if s.threads[i].a != Unlock(MotorL) {
      SettlesHolds(s'.threads[i], Current(s.w.motor), s'.w.state);
    }
  }

  lemma BystanderKeeps(bus: Bus, s: Sys, i: nat)
    requires AllOrdered(s) && Sane(s) && Coherent(s) && i < |s.threads| && Enabled(s, i)
    requires MotorL !in Locks(s.threads[i]) && !(s.threads[i].a.Call? && s.threads[i].a.c == MotorC)
    requires var s' := Taken(bus, s, i);
             && Touches(s.threads[i].a, s.w, s'.w)
             && MotorL !in Locks(s'.threads[i])
    ensures Taken(bus, s, i).w.motor == s.w.motor && Coherent(Taken(bus, s, i))
  {
    var a, rest := s.threads[i].a, s.threads[i].rest;
    var s' := Taken(bus, s, i);
    assert Allowed(a, rest) && Locks(rest) <= Locks(s.threads[i]);
    assert s'.w.state == s.w.state;
    hide Do, RouteOk, Motor.Valid, Current, Settles, Ordered, Allowed, Locks, Fits;
    SameHolders(s, s', i);
  }

  /** Only thread `i` changed, and it holds the motor's lock neither before nor after. */
  lemma SameHolders(s: Sys, s': Sys, i: nat)
    requires Motor.Valid(s.w.motor) && Coherent(s) && s'.w.motor == s.w.motor && s'.w.state == s.w.state
    requires i < |s.threads| && |s'.threads| == |s.threads|
    requires MotorL !in Locks(s.threads[i]) && MotorL !in Locks(s'.threads[i])
    requires forall j | 0 <= j < |s.threads| && j != i :: s'.threads[j] == s.threads[j]
    ensures Coherent(s')
  {
    hide Locks, Settles, Current, Motor.Valid;
    if MotorFree(s') {
      forall j | 0 <= j < |s.threads| ensures MotorL !in Locks(s.threads[j]) {
        assert MotorL !in Locks(s'.threads[j]);
      }
    }
  }

  /** A decision to log changes neither what is held nor what is settled. */
  lemma SpeakKeepsCoherent(s: Sys, s': Sys, i: nat)
    requires Motor.Valid(s.w.motor) && Coherent(s) && i < |s.threads|
    requires s' == s.(threads := s.threads[i := Next(Say, s.threads[i])])
    ensures Coherent(s')
  {
    var t := s.threads[i];
    assert Locks(Next(Say, t)) == Locks(t);
    assert Settles(Next(Say, t), Current(s.w.motor), s.w.state) == Settles(t, Current(s.w.motor), s.w.state);
    hide Locks, Settles, Current, Motor.Valid;
    if MotorFree(s') {
      forall j | 0 <= j < |s.threads| ensures MotorL !in Locks(s.threads[j]) {
        assert MotorL !in Locks(s'.threads[j]);
      }
    }
  }

  lemma StepKeepsCoherent(bus: Bus, s: Sys, mv: Move, s': Sys)
    requires Wired(bus) && AllOrdered(s) && Step(bus, s, mv, s') && Coherent(s)
    ensures Ok(s'.w) && Coherent(s')
  {
    if mv.Take? {
      TakeKeepsCoherent(bus, s, mv.i);
    } else if mv.Submit? {
      SameHolders(s, s', mv.i);
    } else if mv.Speak? {
      SpeakKeepsCoherent(s, s', mv.i);
    } else {
      assert s'.threads == s.threads;
    }
  }

  lemma IdleIsCoherent(s: Sys)
    requires Motor.Valid(s.w.motor) && Idle(s) && s.w.state == CacheStatus(Current(s.w.motor))
    ensures Coherent(s)
  {
    hide Current, Motor.Valid;
  }

  /** In every reachable state in which nobody holds the motor's lock, the cache is MotorService's current status. */
  lemma {:induction false} RunsAreCoherent(bus: Bus, states: seq<Sys>, moves: seq<Move>, k: nat)
    requires Wired(bus) && Run(bus, states, moves) && k < |states|
    requires Idle(states[0]) && Ok(states[0].w) && states[0].w.state == CacheStatus(Current(states[0].w.motor))
    ensures Ok(states[k].w) && Coherent(states[k])
  {
    hide Current, Wired, AllOrdered, Settles, RouteOk, Motor.Valid, Coherent, Can, Make, Fits;
    if k == 0 {
      IdleIsCoherent(states[0]);
    } else {
      RunsAreCoherent(bus, states, moves, k - 1);
      RunsKeepOrder(bus, states, moves, k - 1);
      assert Step(bus, states[k - 1], moves[k - 1], states[k]);
      StepKeepsCoherent(bus, states[k - 1], moves[k - 1], states[k]);
    }
  }
}
