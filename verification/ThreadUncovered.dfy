/** A run in which a region is overwritten in the middle of a sample, and the sample ends outside of it. */
module ThreadUncovered {
  import opened Wrappers
  import opened Messages
  import opened Motor
  import opened Physics
  import opened Environment
  import opened Route
  import opened Mesh
  import opened MeshTraffic
  import opened MeshRoute
  import opened MeshCache
  import opened MeshMotion
  import opened Threads
  import opened ThreadOrder
  import opened ThreadSafety
  import opened ThreadCoherence
  import opened ThreadAlone
  import opened ThreadWitness
  import opened ThreadPublishes
  import opened ThreadDelays
  import opened ThreadCache
  import opened ThreadFollows

  // ---- up to the node check --------------------------------------------------------------------------

  /** What is left once the environment is known. */
  function AtCheck(x: real, rest: Todo): Todo { Next(Check(x), Leave(AutoL, rest)) }

  lemma {:induction false} LookupHits(bus: Bus, x: real, w: World)
    requires Ok(w) && Wired(bus) && w.auto.active && Lookup(w.env.cache, x, 0.0).Some?
    ensures var w' := Publish(bus, MsgLookup(x, 0.0), w);
            && w'.auto.env == Lookup(w.env.cache, x, 0.0) && w'.env.cache == w.env.cache
            && w'.auto.active && w'.auto.cmd == w.auto.cmd
  {
    LookupPoints(bus, x, w);
    hide Ok, Wired, Publish, Lookup;
  }

  lemma RequestHits(bus: Bus, w: World, x: real) returns (n: nat, w': World, rest: Todo)
    requires Wired(bus) && Astray(w, x) && Lookup(w.env.cache, x, 0.0).Some?
    ensures Forwards(rest, MsgKinematics(Position(w)))
    ensures Runs(bus, n, w, Next(Emit(MsgKinematicsRequest), Nil), w', AtCheck(x, rest))
    ensures w'.auto.env == Lookup(w.env.cache, x, 0.0) && w'.env.cache == w.env.cache
    ensures w'.auto.active && w'.auto.cmd == w.auto.cmd
  {
    var w1;
    n, w1, rest := RequestLooks(bus, w, x);
    assert Ok(w1) && w1.auto == w.auto && w1.env == w.env && w.auto.active;
    hide Runs, Wired, Astray, Ok, Publish, Lookup, Forwards;
    w' := Publish(bus, MsgLookup(x, 0.0), w1);
    LookupHits(bus, x, w1);
    var k := PublishRuns(bus, MsgLookup(x, 0.0), w1, AtCheck(x, rest));
    Join(bus, n, k, w, Next(Emit(MsgKinematicsRequest), Nil), w1, Looking(x, rest), w', AtCheck(x, rest));
    n := n + k;
  }

  lemma HitRun(bus: Bus, s: Sys, x: real, lo: real, hi: real) returns (states: seq<Sys>, moves: seq<Move>, rest: Todo)
    requires Wired(bus) && Idle(s) && |s.threads| > 0 && Fine(s, lo, hi)
    requires Astray(s.w, x) && Lookup(s.w.env.cache, x, 0.0).Some?
    ensures Run(bus, states, moves) && states[0] == s && Forwards(rest, MsgKinematics(Position(s.w)))
    ensures var last := states[|states| - 1];
            && last == With(s, 0, last.w, AtCheck(x, rest)) && Fine(last, lo, hi)
            && last.w.auto.env == Lookup(s.w.env.cache, x, 0.0) && last.w.env.cache == s.w.env.cache
            && last.w.auto.active && last.w.auto.cmd == s.w.auto.cmd
  {
    var a := Emit(MsgKinematicsRequest);
    var s1 := With(s, 0, s.w, Next(a, Nil));
    SubmittedStep(bus, s, a, lo, hi);
    var n, w', left := RequestHits(bus, s.w, x);
    rest := left;
    IdleIsOutside(s, s.w, Next(a, Nil));
    hide Wired, Fine, Runs, Astray, Step, OthersOutside, Forwards, Lookup, Idle;
    StepKeepsFine(bus, s, Submit(0, a), s1, lo, hi);
    states, moves := RunsAreSteps(bus, n, s1, 0, w', AtCheck(x, rest), lo, hi);
    RunCons(bus, s, Submit(0, a), states, moves);
    states, moves := [s] + states, [Submit(0, a)] + moves;
    assert With(s1, 0, w', AtCheck(x, rest)) == With(s, 0, w', AtCheck(x, rest));
  }

  // ---- meanwhile -------------------------------------------------------------------------------------

  /** Thread 0 holds the controller's lock, thread 1 goes on, everybody else is idle. */
  predicate Holding(s: Sys) {
    && |s.threads| >= 2 && Locks(s.threads[0]) == {AutoL}
    && forall j | 2 <= j < |s.threads| :: s.threads[j] == Nil
  }

  lemma Aside(bus: Bus, s: Sys, a: Act, rest: Todo, lo: real, hi: real) returns (s': Sys)
    requires Fine(s, lo, hi) && Holding(s) && s.threads[1] == Next(a, rest) && Locks(rest) == {}
    requires Wants(a) != Some(AutoL)
    ensures Ok(s.w) && Fits(a, s.w) && Step(bus, s, Take(1), s')
    ensures s' == With(s, 1, Do(bus, a, rest, s.w).0, Do(bus, a, rest, s.w).1) && Holding(s')
  {
    SafeIsSane(s, lo, hi);
    s' := Taken(bus, s, 1);
    hide Ok, Safe, Coherent, Do;
  }

  /** The two subscribers of region data, in either order. */
  lemma RegionHandlers(bus: Bus)
    requires Wired(bus)
    ensures var hs := HandlersOf(bus, EnvironmentData); hs == [ThermalC, EnvironmentC] || hs == [EnvironmentC, ThermalC]
  {
    var hs := HandlersOf(bus, EnvironmentData);
    forall c: Component ensures multiset(hs)[c] == if c in {ThermalC, EnvironmentC} then 1 else 0 {
      assert Once(hs, c, EnvironmentData in Subscribes(c));
    }
    hide Wired, Subscribes, HandlersOf;
    OneEach(hs, ThermalC, EnvironmentC);
  }

  /** Thread 0 and the controller as they were, thread 1 at `t`. */
  predicate Beside(s: Sys, s': Sys, t: Todo) {
    && Holding(s') && |s'.threads| == |s.threads| && s.threads != [] && s'.threads[0] == s.threads[0]
    && s'.threads[1] == t && s'.w.auto == s.w.auto
  }

  lemma SubmitRegion(bus: Bus, s: Sys, r: Region, lo: real, hi: real) returns (s': Sys)
    requires Fine(s, lo, hi) && Holding(s) && s.threads[1] == Nil
    ensures Step(bus, s, Submit(1, Emit(MsgRegion(r))), s') && s'.w == s.w
    ensures Beside(s, s', Next(Emit(MsgRegion(r)), Nil))
  {
    SafeIsSane(s, lo, hi);
    s' := With(s, 1, s.w, Next(Emit(MsgRegion(r)), Nil));
    hide Ok, Safe, Coherent;
  }

  lemma PostRegion(bus: Bus, s: Sys, r: Region, lo: real, hi: real) returns (s': Sys)
    requires Wired(bus) && Fine(s, lo, hi) && Holding(s) && s.threads[1] == Next(Emit(MsgRegion(r)), Nil)
    ensures Step(bus, s, Take(1), s') && s'.w.env == s.w.env
    ensures var hs, m := HandlersOf(bus, EnvironmentData), MsgRegion(r);
            |hs| == 2 && Beside(s, s', Next(Call(hs[0], m), Next(Call(hs[1], m), Nil)))
  {
    RegionHandlers(bus);
    TwoCalls(HandlersOf(bus, EnvironmentData), MsgRegion(r));
    hide Fine, Wired, Ok, Calls, HandlersOf, Step;
    s' := Aside(bus, s, Emit(MsgRegion(r)), Nil, lo, hi);
  }

  lemma Warm(bus: Bus, s: Sys, m: Msg, rest: Todo, lo: real, hi: real) returns (s': Sys)
    requires Fine(s, lo, hi) && Holding(s) && s.threads[1] == Next(Call(ThermalC, m), rest) && Locks(rest) == {}
    requires m.MsgRegion?
    ensures Step(bus, s, Take(1), s') && Beside(s, s', Leave(ThermalL, rest)) && s'.w.env == s.w.env
  {
    hide Fine, Step;
    s' := Aside(bus, s, Call(ThermalC, m), rest, lo, hi);
    hide Ok;
  }

  lemma Release(bus: Bus, s: Sys, rest: Todo, lo: real, hi: real) returns (s': Sys)
    requires Fine(s, lo, hi) && Holding(s) && s.threads[1] == Leave(ThermalL, rest) && Locks(rest) == {}
    ensures Step(bus, s, Take(1), s') && Beside(s, s', rest) && s'.w == s.w
  {
    hide Fine, Step;
    s' := Aside(bus, s, Unlock(ThermalL), rest, lo, hi);
    hide Ok;
  }

  lemma StoreStep(bus: Bus, s: Sys, r: Region, rest: Todo, lo: real, hi: real) returns (s': Sys)
    requires Fine(s, lo, hi) && Holding(s) && s.threads[1] == Next(Call(EnvironmentC, MsgRegion(r)), rest)
    requires Locks(rest) == {}
    ensures Step(bus, s, Take(1), s') && s'.w.auto == s.w.auto && s'.w.env.cache == Store(s.w.env.cache, r)
    ensures |s'.threads| == |s.threads| && s'.threads[0] == s.threads[0]
  {
    hide Fine, Step, Store;
    s' := Aside(bus, s, Call(EnvironmentC, MsgRegion(r)), rest, lo, hi);
    hide Ok;
  }

  /** The region is on its way to its subscribers. */
  lemma RegionSent(bus: Bus, s: Sys, r: Region, lo: real, hi: real) returns (states: seq<Sys>, moves: seq<Move>)
    requires Wired(bus) && Fine(s, lo, hi) && Holding(s) && s.threads[1] == Nil && lo <= r.ambient <= hi
    ensures Run(bus, states, moves) && states[0] == s && Fine(states[|states| - 1], lo, hi)
    ensures var hs, m, last := HandlersOf(bus, EnvironmentData), MsgRegion(r), states[|states| - 1];
            |hs| == 2 && Beside(s, last, Next(Call(hs[0], m), Next(Call(hs[1], m), Nil))) && last.w.env == s.w.env
  {
    var m := MsgRegion(r);
    hide Wired, Fine, Step, HandlersOf, Locks;
    assert Run(bus, [s], []);
    var s1 := SubmitRegion(bus, s, r, lo, hi);
    Extend(bus, [s], [], Submit(1, Emit(m)), s1, lo, hi);
    var s2 := PostRegion(bus, s1, r, lo, hi);
    Extend(bus, [s, s1], [Submit(1, Emit(m))], Take(1), s2, lo, hi);
    states, moves := [s, s1, s2], [Submit(1, Emit(m)), Take(1)];
  }

  /** The region is stored, whatever the order of its subscribers, while thread 0 waits. */
  lemma StoreRun(bus: Bus, s: Sys, r: Region, lo: real, hi: real) returns (states: seq<Sys>, moves: seq<Move>)
    requires Wired(bus) && Fine(s, lo, hi) && Holding(s) && s.threads[1] == Nil && lo <= r.ambient <= hi
    ensures Run(bus, states, moves) && states[0] == s && Fine(states[|states| - 1], lo, hi)
    ensures var last := states[|states| - 1];
            && last.w.auto == s.w.auto && last.w.env.cache == Store(s.w.env.cache, r)
            && |last.threads| == |s.threads| && last.threads[0] == s.threads[0]
  {
    var m := MsgRegion(r);
    RegionHandlers(bus);
    NoLocks(m);
    hide Wired, Fine, Step, Store, HandlersOf, Locks, Run;
    states, moves := RegionSent(bus, s, r, lo, hi);
    RunLength(bus, states, moves);
    var last := states[|states| - 1];
    if HandlersOf(bus, EnvironmentData)[0] == ThermalC {
      states, moves, last := WarmRun(bus, states, moves, m, lo, hi);
      RunLength(bus, states, moves);
    }
    var end := StoreStep(bus, last, r, last.threads[1].rest, lo, hi);
    Extend(bus, states, moves, Take(1), end, lo, hi);
    states, moves := states + [end], moves + [Take(1)];
  }

  /** ThermalService comes first. */
  lemma WarmRun(bus: Bus, before: seq<Sys>, earlier: seq<Move>, m: Msg, lo: real, hi: real)
    returns (states: seq<Sys>, moves: seq<Move>, s': Sys)
    requires Wired(bus) && Run(bus, before, earlier) && m.MsgRegion?
    requires var s := before[|before| - 1];
             Fine(s, lo, hi) && Holding(s) && s.threads[1] == Next(Call(ThermalC, m), Next(Call(EnvironmentC, m), Nil))
    ensures Run(bus, states, moves) && states[0] == before[0] && states[|states| - 1] == s' && Fine(s', lo, hi)
    ensures Beside(before[|before| - 1], s', Next(Call(EnvironmentC, m), Nil)) && s'.w.env == before[|before| - 1].w.env
  {
    var s := before[|before| - 1];
    NoLocks(m);
    hide Wired, Fine, Step, Locks;
    var s3 := Warm(bus, s, m, Next(Call(EnvironmentC, m), Nil), lo, hi);
    Extend(bus, before, earlier, Take(1), s3, lo, hi);
    s' := Release(bus, s3, Next(Call(EnvironmentC, m), Nil), lo, hi);
    Extend(bus, before + [s3], earlier + [Take(1)], Take(1), s', lo, hi);
    states, moves := before + [s3] + [s'], earlier + [Take(1)] + [Take(1)];
  }

  lemma NoLocks(m: Msg)
    ensures Locks(Nil) == {} && forall c :: Locks(Next(Call(c, m), Nil)) == {}
  {
    var nil := Nil;
    assert Locks(nil) == {};
  }

  // ---- and the check ---------------------------------------------------------------------------------

  lemma CheckStep(bus: Bus, s: Sys, x: real, rest: Todo, lo: real, hi: real) returns (s': Sys)
    requires Fine(s, lo, hi) && |s.threads| > 0 && s.threads[0] == AtCheck(x, rest)
    ensures Step(bus, s, Take(0), s') && s'.w.env == s.w.env && s'.w.auto.env == s.w.auto.env
  {
    SafeIsSane(s, lo, hi);
    s' := Taken(bus, s, 0);
    hide Safe, Coherent, Motor.Valid, RouteOk, Reached, NodeSequence;
  }

  /**
    For every wired bus and every tuned route at `x` whose environment has to be asked for: its sample finds the
    first covering entry, another thread overwrites that entry's region, and the sample ends with a current
    environment that does not cover `x`, although the `other` entry of the cache still does.
   */
  lemma SampleEndsUncovered(bus: Bus, s: Sys, x: real, r: Region, other: nat, lo: real, hi: real)
    returns (states: seq<Sys>, moves: seq<Move>)
    requires Wired(bus) && Idle(s) && |s.threads| >= 2 && Rest(s.w, lo, hi) && Astray(s.w, x)
    requires var cache := s.w.env.cache;
             && Lookup(cache, x, 0.0).Some? && Find(cache, r.id) == Lookup(cache, x, 0.0)
             && other < |cache| && Some(other) != Lookup(cache, x, 0.0) && Covers(cache[other], x, 0.0)
    requires !CoversX(r, x) && lo <= r.ambient <= hi
    ensures Run(bus, states, moves) && states[0] == s && moves != []
    ensures EndsUncovered(states, moves, x, other)
  {
    IdleIsFine(s, lo, hi);
    var rest;
    states, moves, rest := HitRun(bus, s, x, lo, hi);
    var s1 := states[|states| - 1];
    HoldsOnly(s, s1, x, rest, MsgKinematics(Position(s.w)));
    var at := Lookup(s.w.env.cache, x, 0.0);
    assert Store(s.w.env.cache, r) == s.w.env.cache[at.value := r];
    hide Wired, Fine, Step, Rest, Idle, Holding, Astray, Lookup, Find, Store, Covers, CoversX, Forwards;
    var more, mvs := StoreRun(bus, s1, r, lo, hi);
    var s2 := more[|more| - 1];
    RunJoin(bus, states, moves, more, mvs);
    states, moves := states + more[1..], moves + mvs;
    var s3 := CheckStep(bus, s2, x, rest, lo, hi);
    Extend(bus, states, moves, Take(0), s3, lo, hi);
    states, moves := states + [s3], moves + [Take(0)];
  }

  /** The last move is the node check of a tuned route at `x`, with a current environment that does not cover `x`. */
  predicate EndsUncovered(states: seq<Sys>, moves: seq<Move>, x: real, other: nat) {
    && |states| == |moves| + 1 >= 2
    && var s, s' := states[|moves| - 1], states[|moves|];
       && moves[|moves| - 1] == Take(0) && |s.threads| > 0 && s.threads[0].Next? && s.threads[0].a == Check(x)
       && s.w.auto.active && s.w.auto.cmd.tuning
       && !Covered(s.w.auto, s.w.env.cache, x) && !Covered(s'.w.auto, s'.w.env.cache, x)
       && other < |s'.w.env.cache| && Covers(s'.w.env.cache[other], x, 0.0)
  }

  lemma HoldsOnly(s: Sys, s1: Sys, x: real, rest: Todo, m: Msg)
    requires Idle(s) && |s.threads| >= 2 && Forwards(rest, m) && s1 == With(s, 0, s1.w, AtCheck(x, rest))
    ensures Holding(s1) && s1.threads[1] == Nil
  {
    NoLocks(m);
    assert Locks(Leave(AutoL, rest)) == {AutoL};
  }

  // ---- from the start --------------------------------------------------------------------------------

  lemma {:induction false} AckKeepsKin(bus: Bus, id: uint32, w: World)
    requires Wired(bus) && Ok(w)
    ensures Publish(bus, MsgRegionAck(id), w).kin == w.kin
  {
    var m := MsgRegionAck(id);
    SoleHandler(bus, EnvironmentAck, BridgeC);
    assert Ok(Post(m, w));
    hide Ok, Frame, Wired;
    DeliverOne(bus, BridgeC, m, Post(m, w));
  }

  lemma {:induction false} RegionKeepsKin(bus: Bus, hs: seq<Component>, e: Region, w: World)
    requires Wired(bus) && Ok(w)
    ensures Deliver(bus, hs, MsgRegion(e), w).kin == w.kin
    decreases |hs|
  {
    hide Ok, Frame, Wired;
    if hs != [] {
      RegionKeepsKin(bus, hs[..|hs| - 1], e, w);
      RegionHandledKin(bus, hs[|hs| - 1], e, Deliver(bus, hs[..|hs| - 1], MsgRegion(e), w));
    }
  }

  lemma {:induction false} RegionHandledKin(bus: Bus, c: Component, e: Region, w: World)
    requires Wired(bus) && Ok(w)
    ensures Handle(bus, c, MsgRegion(e), w).kin == w.kin
  {
    hide RouteOk, Motor.Valid, Store, Publish, Heat, Wired;
    if c == EnvironmentC {
      var w1 := w.(env := w.env.(cache := Store(w.env.cache, e)));
      assert Ok(w1);
      AckKeepsKin(bus, e.id, w1);
      assert Handle(bus, c, MsgRegion(e), w) == EnvOnRegion(bus, e, w);
    }
  }

  /** A region received at rest. */
  lemma RegionRun(bus: Bus, s: Sys, e: Region) returns (states: seq<Sys>, moves: seq<Move>)
    requires Wired(bus) && Idle(s) && |s.threads| >= 2 && Rest(s.w, 20.0, 20.0) && e.ambient == 20.0
    ensures Run(bus, states, moves) && states[0] == s
    ensures var last := states[|states| - 1];
            && Idle(last) && |last.threads| == |s.threads| && Rest(last.w, 20.0, 20.0)
            && last.w.env.cache == Store(s.w.env.cache, e) && last.w.auto == s.w.auto && last.w.kin == s.w.kin
  {
    RegionReceived(bus, e, s.w);
    states, moves := UndisturbedRunIsPublish(bus, Emit(MsgRegion(e)), s, 0, 20.0, 20.0);
    hide Wired, Rest, Step, Publish, Store, Ok;
  }

  lemma {:induction false} RegionReceived(bus: Bus, e: Region, w: World)
    requires Wired(bus) && Ok(w)
    ensures var w' := Publish(bus, MsgRegion(e), w);
            w'.env.cache == Store(w.env.cache, e) && w'.auto == w.auto && w'.kin == w.kin
  {
    var m := MsgRegion(e);
    RegionStored(bus, e, w);
    assert Ok(Post(m, w));
    hide Wired, Deliver, Store, Ok;
    RegionKeepsKin(bus, HandlersOf(bus, EnvironmentData), e, Post(m, w));
  }

  /** A tuned route received at rest. */
  lemma AwayRun(bus: Bus, s: Sys) returns (states: seq<Sys>, moves: seq<Move>)
    requires Wired(bus) && Idle(s) && |s.threads| >= 2 && Rest(s.w, 20.0, 20.0)
    ensures Run(bus, states, moves) && states[0] == s
    ensures var last := states[|states| - 1];
            && Idle(last) && |last.threads| == |s.threads| && Rest(last.w, 20.0, 20.0)
            && last.w.env == s.w.env && last.w.kin.position == s.w.kin.position
            && Astray(last.w, Metres(s.w.kin.position))
  {
    states, moves := UndisturbedRunIsPublish(bus, Emit(MsgRoute(AWAY)), s, 0, 20.0, 20.0);
    RouteHandled(bus, AWAY, s.w);
    RouteStarts(bus, AWAY, Post(MsgRoute(AWAY), s.w));
    hide Wired, RouteOk, Motor.Valid, Step, Publish, AutoOnRoute, Metres, Temperate;
  }

  const HERE := Region(1, -1.0, -1.0, 1.0, 1.0, 20.0, 0.0, 1000.0)
  const ALSO_HERE := Region(2, -1.0, -1.0, 1.0, 1.0, 20.0, 0.0, 1000.0)
  const MOVED_AWAY := Region(1, 5.0, -1.0, 6.0, 1.0, 20.0, 0.0, 1000.0)

  lemma TwoStored()
    ensures var cache := Store(Store([], HERE), ALSO_HERE);
            && |cache| == 2 && Lookup(cache, 0.0, 0.0) == Some(0) == Find(cache, MOVED_AWAY.id)
            && Covers(cache[1], 0.0, 0.0)
  {
    var one := Store([], HERE);
    assert one == [HERE];
    assert Find([HERE], 2) == None by {
      assert [HERE][..0] == [];
    }
    var cache := Store(one, ALSO_HERE);
    assert cache == [HERE, ALSO_HERE] && cache[..1] == [HERE] && [HERE][..0] == [];
    assert Lookup([HERE], 0.0, 0.0) == Some(0) == Find([HERE], 1);
  }

  /** From the start: two regions that cover it, a route, a sample, and one of the regions moved meanwhile. */
  lemma UncoveredFromStart(bus: Bus, s: Sys, now: int, supply: (real, real))
    returns (states: seq<Sys>, moves: seq<Move>)
    requires Wired(bus) && Idle(s) && |s.threads| >= 2 && s.w == Fresh(now, supply)
    ensures Run(bus, states, moves) && states[0] == s && EndsUncovered(states, moves, 0.0, 1)
  {
    FreshRests(now, supply, 20.0, 20.0);
    var s1, s2, s3, more, mvs;
    assert Metres(s.w.kin.position) == 0.0 && s.w.env.cache == [];
    TwoStored();
    hide Wired, Rest, Step, Fresh, Astray, Metres, Store, Find, Lookup, Covers, Idle;
    states, moves := RegionRun(bus, s, HERE);
    s1 := states[|states| - 1];
    more, mvs := RegionRun(bus, s1, ALSO_HERE);
    s2 := more[|more| - 1];
    RunJoin(bus, states, moves, more, mvs);
    states, moves := states + more[1..], moves + mvs;
    more, mvs := AwayRun(bus, s2);
    s3 := more[|more| - 1];
    RunJoin(bus, states, moves, more, mvs);
    states, moves := states + more[1..], moves + mvs;
    more, mvs := SampleEndsUncovered(bus, s3, 0.0, MOVED_AWAY, 1, 20.0, 20.0);
    RunJoin(bus, states, moves, more, mvs);
    EndsLater(states, moves, more, mvs);
    states, moves := states + more[1..], moves + mvs;
  }

  lemma EndsLater(states: seq<Sys>, moves: seq<Move>, more: seq<Sys>, mvs: seq<Move>)
    requires |states| == |moves| + 1 && EndsUncovered(more, mvs, 0.0, 1) && states[|states| - 1] == more[0]
    ensures EndsUncovered(states + more[1..], moves + mvs, 0.0, 1)
  {
    hide Covered, Covers;
    var all, n := states + more[1..], |moves| + |mvs|;
    assert all[n] == more[|mvs|] && all[n - 1] == more[|mvs| - 1];
  }
}
