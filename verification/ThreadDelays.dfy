/** Between the reading that decides on an external request and its publish, time passes: publishes come close. */
module ThreadDelays {
  import opened Wrappers
  import opened Messages
  import opened Motor
  import opened Physics
  import opened Environment
  import opened Route
  import opened Mesh
  import opened MeshTraffic
  import opened MeshRoute
  import opened MeshMotion
  import opened Threads
  import opened ThreadOrder
  import opened ThreadSafety
  import opened ThreadCoherence
  import opened ThreadAlone
  import opened ThreadTraffic
  import opened ThreadRequests
  import opened ThreadPublishes
  import opened ThreadWitness

  /** An active tuned route at `x`, where no region is known, and the next sample there does not reach the node. */
  predicate Searching(w: World, x: real) {
    && Ok(w) && w.auto.active && w.auto.idx < w.auto.cmd.numNodes && w.auto.cmd.tuning && w.auto.env.None?
    && Lookup(w.env.cache, x, 0.0).None? && Metres(w.kin.position) == x
    && !Reached(w.auto.cmd.route[w.auto.idx].x, w.auto.lastPos, x)
  }

  predicate MayAsk(w: World) { w.now - w.env.lastRequest > THROTTLE }

  // ---- up to the decision ----------------------------------------------------------------------------

  /** What is left once a request was decided at `at`. */
  function Decided(x: real, at: int, rest: Todo): Todo {
    Next(Emit(MsgRegionRequest(x, 0.0)), Next(Stamp(at), Leave(EnvL, Next(Check(x), Leave(AutoL, rest)))))
  }

  /** The bridge may come before or after the controller. */
  predicate Forwards(t: Todo, m: Msg) { t == Nil || t == Next(Call(BridgeC, m), Nil) }

  /** The same services, with more sent. */
  predicate OnlySent(w: World, w': World) {
    w' == w.(sent := w'.sent) && w.sent <= w'.sent
  }

  lemma BridgeRuns(bus: Bus, m: Msg, w: World, rest: Todo)
    requires Ok(w) && MsgOk(m, w)
    ensures Runs(bus, 2, w, Next(Call(BridgeC, m), rest), w, rest)
  {
    hide Ok, Runs;
    One(bus, w, Unlock(PeerL), rest);
    Lead(bus, 1, w, Call(BridgeC, m), rest, w, rest);
  }

  /** The lookup misses, and the request is decided. */
  lemma LookupDecides(bus: Bus, x: real, w: World, rest: Todo) returns (w': World)
    requires Wired(bus) && Searching(w, x) && MayAsk(w)
    ensures OnlySent(w, w')
    ensures Runs(bus, 2, w, Next(Emit(MsgLookup(x, 0.0)), Next(Check(x), Leave(AutoL, rest))), w',
            Decided(x, w.now, rest))
  {
    var m, t := MsgLookup(x, 0.0), Next(Check(x), Leave(AutoL, rest));
    w' := Post(m, w);
    SoleHandler(bus, InternalEnvRequest, EnvironmentC);
    SoleCall(EnvironmentC, m, t);
    assert Ok(w');
    hide Ok, Runs, Lookup, Wired;
    One(bus, w', Call(EnvironmentC, m), t);
    Lead(bus, 1, w, Emit(m), t, w', Decided(x, w.now, rest));
  }

  lemma SoleCall(c: Component, m: Msg, rest: Todo)
    ensures Calls([c], m, rest) == Next(Call(c, m), rest)
  {
    assert [c][..0] == [];
  }

  /** An active tuned route at `x`, where its environment has to be asked for. */
  predicate Astray(w: World, x: real) {
    && Ok(w) && w.auto.active && w.auto.idx < w.auto.cmd.numNodes && w.auto.cmd.tuning
    && OffMap(w.auto, w.env.cache, x) && Metres(w.kin.position) == x
  }

  /** What is left once the controller has decided to look `x` up. */
  function Looking(x: real, rest: Todo): Todo {
    Next(Emit(MsgLookup(x, 0.0)), Next(Check(x), Leave(AutoL, rest)))
  }

  /** The controller's handler on a sample. */
  lemma SampleLooks(bus: Bus, k: Kinematics, w: World, rest: Todo)
    requires Astray(w, Metres(k.position))
    ensures Runs(bus, 1, w, Next(Call(AutonomousC, MsgKinematics(k)), rest), w, Looking(Metres(k.position), rest))
  {
    hide Runs, Metres, Reached, OffMap;
    One(bus, w, Call(AutonomousC, MsgKinematics(k)), rest);
  }

  /** The two subscribers of the kinematics, in either order. */
  lemma TwoHandlers(bus: Bus)
    requires Wired(bus)
    ensures var hs := HandlersOf(bus, KinematicsData); hs == [AutonomousC, BridgeC] || hs == [BridgeC, AutonomousC]
  {
    var hs := HandlersOf(bus, KinematicsData);
    forall c: Component ensures multiset(hs)[c] == if c in {AutonomousC, BridgeC} then 1 else 0 {
      assert Once(hs, c, KinematicsData in Subscribes(c));
    }
    hide Wired, Subscribes, HandlersOf;
    OneEach(hs, AutonomousC, BridgeC);
  }

  lemma OneEach(hs: seq<Component>, a: Component, b: Component)
    requires a != b && forall c: Component :: multiset(hs)[c] == if c in {a, b} then 1 else 0
    ensures hs == [a, b] || hs == [b, a]
  {
    assert multiset(hs) == multiset{a, b};
    assert |multiset(hs)| == |hs| == 2;
    assert hs == [hs[0], hs[1]];
    assert hs[0] in multiset(hs) && hs[1] in multiset(hs);
  }

  /** The sample reaches the controller, before or after the bridge. */
  lemma DataLooks(bus: Bus, k: Kinematics, w: World) returns (n: nat, w': World, rest: Todo)
    requires Wired(bus) && Astray(w, Metres(k.position))
    ensures w' == Post(MsgKinematics(k), w) && Forwards(rest, MsgKinematics(k))
    ensures Runs(bus, n, w, Next(Emit(MsgKinematics(k)), Nil), w', Looking(Metres(k.position), rest))
  {
    var m, x := MsgKinematics(k), Metres(k.position);
    w' := Post(m, w);
    assert Astray(w', x) && Ok(w) && Ok(w');
    TwoHandlers(bus);
    var hs := HandlersOf(bus, KinematicsData);
    var bridge, auto := Next(Call(BridgeC, m), Nil), Next(Call(AutonomousC, m), Nil);
    rest := if hs == [AutonomousC, BridgeC] then bridge else Nil;
    TwoCalls(hs, m);
    hide Runs, Wired, Metres, Ok, Calls, Astray;
    SampleLooks(bus, k, w', rest);
    n := 1;
    if rest == Nil {
      BridgeRuns(bus, m, w', auto);
      Join(bus, 2, 1, w', Next(Call(BridgeC, m), auto), w', auto, w', Looking(x, rest));
      n := 3;
    }
    Lead(bus, n, w, Emit(m), Nil, w', Looking(x, rest));
    n := n + 1;
  }

  lemma TwoCalls(hs: seq<Component>, m: Msg)
    requires |hs| == 2
    ensures Calls(hs, m, Nil) == Next(Call(hs[0], m), Next(Call(hs[1], m), Nil))
  {
    assert hs[..1] == [hs[0]];
    SoleCall(hs[0], m, Next(Call(hs[1], m), Nil));
  }

  /** From the request for the kinematics to the lookup: only publishes, and everything else as it was. */
  lemma RequestLooks(bus: Bus, w: World, x: real) returns (n: nat, w': World, rest: Todo)
    requires Wired(bus) && Astray(w, x)
    ensures OnlySent(w, w') && Forwards(rest, MsgKinematics(Position(w)))
    ensures Runs(bus, n, w, Next(Emit(MsgKinematicsRequest), Nil), w', Looking(x, rest))
  {
    var w1, k := Post(MsgKinematicsRequest, w), Position(w);
    assert Astray(w1, x) && Ok(w) && Ok(w1);
    SoleHandler(bus, KinematicsRequest, KinematicsC);
    SoleCall(KinematicsC, MsgKinematicsRequest, Nil);
    hide Runs, Wired, Metres, Ok, Calls, Astray;
    n, w', rest := DataLooks(bus, k, w1);
    Lead(bus, n, w1, Call(KinematicsC, MsgKinematicsRequest), Nil, w', Looking(x, rest));
    Lead(bus, n + 1, w, Emit(MsgKinematicsRequest), Nil, w', Looking(x, rest));
    n := n + 2;
  }

  /** And on to the decision. */
  lemma RequestDecides(bus: Bus, w: World, x: real) returns (n: nat, w': World, rest: Todo)
    requires Wired(bus) && Searching(w, x) && MayAsk(w)
    ensures OnlySent(w, w') && Forwards(rest, MsgKinematics(Position(w)))
    ensures Runs(bus, n, w, Next(Emit(MsgKinematicsRequest), Nil), w', Decided(x, w.now, rest))
  {
    var w1;
    n, w1, rest := RequestLooks(bus, w, x);
    assert Searching(w1, x) && MayAsk(w1);
    hide Runs, Wired, Searching, Astray, MayAsk;
    w' := LookupDecides(bus, x, w1, rest);
    Join(bus, n, 2, w, Next(Emit(MsgKinematicsRequest), Nil), w1, Looking(x, rest), w', Decided(x, w.now, rest));
    n := n + 2;
  }

  // ---- from the decision on --------------------------------------------------------------------------

  /** The request is published now; the reading recorded is the one that decided. */
  function Asked(w: World, x: real, at: int): World
    requires Ok(w) && w.auto.active && !Reached(w.auto.cmd.route[w.auto.idx].x, w.auto.lastPos, x)
  {
    Post(MsgRegionRequest(x, 0.0), w).(env := w.env.(lastRequest := at), auto := Moved(w.auto, x))
  }

  lemma CheckRuns(bus: Bus, x: real, w: World, rest: Todo, m: Msg) returns (n: nat)
    requires Ok(w) && w.auto.active && !Reached(w.auto.cmd.route[w.auto.idx].x, w.auto.lastPos, x)
    requires Forwards(rest, m) && m.MsgKinematics?
    ensures Runs(bus, n, w, Next(Check(x), Leave(AutoL, rest)), w.(auto := Moved(w.auto, x)), Nil)
  {
    var w' := w.(auto := Moved(w.auto, x));
    assert Ok(w');
    hide Runs, Ok, Reached, Moved;
    n := 0;
    if rest != Nil {
      BridgeRuns(bus, m, w', Nil);
      n := 2;
    } else {
      NoneRuns(bus, w', Nil);
    }
    Lead(bus, n, w', Unlock(AutoL), rest, w', Nil);
    Lead(bus, n + 1, w, Check(x), Leave(AutoL, rest), w', Nil);
    n := n + 2;
  }

  lemma NoneRuns(bus: Bus, w: World, t: Todo)
    ensures Runs(bus, 0, w, t, w, t)
  {
  }

  lemma DecidedRuns(bus: Bus, x: real, at: int, w: World, rest: Todo, m: Msg) returns (n: nat)
    requires Wired(bus) && Ok(w) && w.auto.active && !Reached(w.auto.cmd.route[w.auto.idx].x, w.auto.lastPos, x)
    requires Forwards(rest, m) && m.MsgKinematics?
    ensures Runs(bus, n, w, Decided(x, at, rest), Asked(w, x, at), Nil)
  {
    var ask := MsgRegionRequest(x, 0.0);
    var check := Next(Check(x), Leave(AutoL, rest));
    var stamp := Next(Stamp(at), Leave(EnvL, check));
    var w1 := Post(ask, w);
    var w2 := w1.(env := w1.env.(lastRequest := at));
    var w' := Asked(w, x, at);
    assert Ok(w1) && Ok(w2);
    n := CheckRuns(bus, x, w2, rest, m);
    RequestPosted(bus, x, w);
    hide Runs, Ok, Reached, Moved, Wired, Do, Publish, Forwards;
    StampRuns(bus, n, w1, at, check, w');
    var k := PublishRuns(bus, ask, w, stamp);
    Join(bus, k, n + 2, w, Next(Emit(ask), stamp), w1, stamp, w', Nil);
    n := k + (n + 2);
  }

  lemma {:induction false} RequestPosted(bus: Bus, x: real, w: World)
    requires Ok(w)
    ensures Publish(bus, MsgRegionRequest(x, 0.0), w) == Post(MsgRegionRequest(x, 0.0), w)
  {
    var m := MsgRegionRequest(x, 0.0);
    PublishedByDelivery(bus, m, w);
    hide Ok, Frame, Publish, Deliver, HandlersOf;
    Silent(bus, HandlersOf(bus, EnvironmentRequest), m, Post(m, w));
  }

  /** The time is stamped, and the lock released. */
  lemma StampRuns(bus: Bus, n: nat, w: World, at: int, rest: Todo, w': World)
    requires Ok(w) && Ok(w.(env := w.env.(lastRequest := at)))
    requires Runs(bus, n, w.(env := w.env.(lastRequest := at)), rest, w', Nil)
    ensures Runs(bus, n + 2, w, Next(Stamp(at), Leave(EnvL, rest)), w', Nil)
  {
    hide Runs, Ok;
    Lead(bus, n, w.(env := w.env.(lastRequest := at)), Unlock(EnvL), rest, w', Nil);
    Lead(bus, n + 1, w, Stamp(at), Leave(EnvL, rest), w', Nil);
  }

  // ---- two publishes ---------------------------------------------------------------------------------

  /** From idle threads to the decision, which leaves one thread with the request to publish. */
  lemma DecisionRun(bus: Bus, s: Sys, x: real, lo: real, hi: real)
    returns (states: seq<Sys>, moves: seq<Move>, rest: Todo)
    requires Wired(bus) && Idle(s) && |s.threads| > 0 && Fine(s, lo, hi) && Searching(s.w, x) && MayAsk(s.w)
    ensures Run(bus, states, moves) && states[0] == s && Forwards(rest, MsgKinematics(Position(s.w)))
    ensures var last := states[|states| - 1];
            && last == With(s, 0, last.w, Decided(x, s.w.now, rest)) && OnlySent(s.w, last.w) && Fine(last, lo, hi)
  {
    var a := Emit(MsgKinematicsRequest);
    var s1 := With(s, 0, s.w, Next(a, Nil));
    SubmittedStep(bus, s, a, lo, hi);
    var n, w', left := RequestDecides(bus, s.w, x);
    rest := left;
    IdleIsOutside(s, s.w, Next(a, Nil));
    hide Wired, Fine, Runs, Searching, Step, OthersOutside, MayAsk, Forwards, OnlySent;
    assert Run(bus, [s], []);
    Extend(bus, [s], [], Submit(0, a), s1, lo, hi);
    states, moves := RunsAreSteps(bus, n, s1, 0, w', Decided(x, s.w.now, rest), lo, hi);
    RunCons(bus, s, Submit(0, a), states, moves);
    states, moves := [s] + states, [Submit(0, a)] + moves;
    assert With(s1, 0, w', Decided(x, s.w.now, rest)) == With(s, 0, w', Decided(x, s.w.now, rest));
  }

  lemma SubmittedStep(bus: Bus, s: Sys, a: Act, lo: real, hi: real)
    requires Idle(s) && |s.threads| > 0 && Fine(s, lo, hi) && Entry(a)
    ensures Step(bus, s, Submit(0, a), With(s, 0, s.w, Next(a, Nil)))
  {
    SafeIsSane(s, lo, hi);
    hide Ok, Safe, Coherent;
  }

  lemma IdleIsOutside(s: Sys, w: World, t: Todo)
    requires Idle(s) && |s.threads| > 0
    ensures OthersOutside(With(s, 0, w, t), 0)
  {
  }

  /** Time passes, and the thread with the request goes on undisturbed. */
  lemma LateRun(bus: Bus, s: Sys, x: real, at: int, rest: Todo, m: Msg, d: nat, lo: real, hi: real)
    returns (states: seq<Sys>, moves: seq<Move>)
    requires Wired(bus) && |s.threads| > 0 && s.threads[0] == Decided(x, at, rest) && OthersOutside(s, 0)
             && Fine(s, lo, hi)
    requires Searching(s.w, x) && Forwards(rest, m) && m.MsgKinematics?
    ensures Run(bus, states, moves) && states[0] == s
    ensures states[|states| - 1] == With(s, 0, Asked(s.w.(now := s.w.now + d), x, at), Nil)
    ensures Fine(states[|states| - 1], lo, hi)
  {
    var w1 := s.w.(now := s.w.now + d);
    var s1 := s.(w := w1);
    assert Ok(w1);
    ClockStep(bus, s, d, lo, hi);
    var n := DecidedRuns(bus, x, at, w1, rest, m);
    SameLocks(s, s1);
    var w' := Asked(w1, x, at);
    hide Wired, Fine, Runs, Step, OthersOutside, Forwards, Asked, Searching, Ok;
    assert Run(bus, [s], []);
    Extend(bus, [s], [], Clock(d), s1, lo, hi);
    states, moves := RunsAreSteps(bus, n, s1, 0, w', Nil, lo, hi);
    RunCons(bus, s, Clock(d), states, moves);
    states, moves := [s] + states, [Clock(d)] + moves;
    assert With(s1, 0, w', Nil) == With(s, 0, w', Nil);
  }

  lemma ClockStep(bus: Bus, s: Sys, d: nat, lo: real, hi: real)
    requires Fine(s, lo, hi)
    ensures Step(bus, s, Clock(d), s.(w := s.w.(now := s.w.now + d)))
  {
    SafeIsSane(s, lo, hi);
    hide Ok, Safe, Coherent;
  }

  lemma SameLocks(s: Sys, s1: Sys)
    requires OthersOutside(s, 0) && s1.threads == s.threads
    ensures OthersOutside(s1, 0)
  {
  }

  /** After a sample that does not reach the node, the search goes on. */
  lemma SearchGoesOn(w: World, x: real, at: int, d: nat)
    requires Searching(w, x)
    ensures var w' := Asked(w, x, at); Searching(w', x) && Searching(w'.(now := w'.now + d), x)
  {
    var target := w.auto.cmd.route[w.auto.idx].x;
    ReachedExactly(target, w.auto.lastPos, x);
    ReachedExactly(target, x, x);
    hide RouteOk, Motor.Valid, Lookup, Metres, Reached;
    assert RouteOk(Moved(w.auto, x));
  }

  predicate Asks(sent: Sent, x: real, at: int) { sent == Sent(MsgRegionRequest(x, 0.0), at) }

  // ---- readings and publishes of these runs ----------------------------------------------------------

  lemma {:induction false} TimesJoin(a: seq<Sent>, b: seq<Sent>)
    ensures RequestTimes(a + b) == RequestTimes(a) + RequestTimes(b)
    decreases |b|
  {
    if b == [] {
      assert a + b == a;
    } else {
      var init, last := b[..|b| - 1], b[|b| - 1];
      TimesJoin(a, init);
      TimesSnoc(a + init, last);
      assert a + b == (a + init) + [last];
    }
  }

  /** The one request since then is this one. */
  lemma OneTime(before: seq<Sent>, sent: seq<Sent>, i: nat, x: real, at: int, times: seq<int>)
    requires before <= sent && |before| <= i < |sent| && Asks(sent[i], x, at)
    requires RequestTimes(sent) == RequestTimes(before) + times && |times| == 1
    ensures times == [at]
  {
    var mid, post := sent[|before|..i], sent[i + 1..];
    assert sent == ((before + mid) + [sent[i]]) + post;
    TimesJoin(before, mid);
    TimesSnoc(before + mid, sent[i]);
    TimesJoin((before + mid) + [sent[i]], post);
    hide RequestTimes;
    OneInMiddle(RequestTimes(before), RequestTimes(mid), at, RequestTimes(post), times);
  }

  lemma OneInMiddle(a: seq<int>, b: seq<int>, at: int, c: seq<int>, times: seq<int>)
    requires a + times == ((a + b) + [at]) + c && |times| == 1
    ensures times == [at]
  {
    assert (a + times)[|a|] == times[0] && b == [] && c == [];
  }

  lemma OnlyReading(s: Sys, s': Sys, readings: seq<int>, publishes: seq<int>)
    requires Settled(s, s', readings, publishes) && s'.w.env.lastRequest == s.w.now != s.w.env.lastRequest
    ensures readings == [s.w.now] && |publishes| == 1
  {
    Grows(readings);
  }

  /** A run between idle threads that leaves the time of its start recorded, and asked `late` after that. */
  lemma LateTimes(bus: Bus, states: seq<Sys>, moves: seq<Move>, i: nat, x: real, late: nat)
    requires Wired(bus) && Run(bus, states, moves) && Idle(states[0]) && Idle(states[|moves|])
    requires states[0].w.env.lastRequest != states[0].w.now == states[|moves|].w.env.lastRequest
    requires var before, sent := states[0].w.sent, states[|moves|].w.sent;
             before <= sent && |before| <= i < |sent| && Asks(sent[i], x, states[0].w.now + late)
    ensures Readings(states, moves, |moves|) == [states[0].w.now]
    ensures Publishes(states, moves, |moves|) == [states[0].w.now + late]
  {
    hide *;
    RunLength(bus, states, moves);
    var r, p := Readings(states, moves, |moves|), Publishes(states, moves, |moves|);
    IdleSettles(bus, states, moves);
    OnlyReading(states[0], states[|moves|], r, p);
    PublishesAreSent(bus, states, moves, |moves|);
    OneTime(states[0].w.sent, states[|moves|].w.sent, i, x, states[0].w.now + late, p);
  }

  lemma InstantReading(readings: seq<int>, publishes: seq<int>, now: int)
    requires Spaced(readings) && Alternate(readings, publishes, now, now) && publishes != []
    ensures readings == [now] == publishes
  {
    Grows(readings);
  }

  /** A run in which no time passes, and whose last move publishes. */
  lemma InstantTimes(bus: Bus, states: seq<Sys>, moves: seq<Move>)
    requires Wired(bus) && Run(bus, states, moves) && Idle(states[0]) && moves != []
    requires PublishTime(states[|moves| - 1], moves[|moves| - 1]) != []
    requires states[|moves|].w.now == states[0].w.now
    ensures Readings(states, moves, |moves|) == [states[0].w.now] == Publishes(states, moves, |moves|)
  {
    var r, p := Readings(states, moves, |moves|), Publishes(states, moves, |moves|);
    hide PublishTime;
    assert p != [];
    hide Wired, Step, Readings, Publishes, Total, Idle, AllFollowed, Tracked, Tallied, Alternate, Spaced;
    RunsAreThrottled(bus, states, moves, |moves|);
    RunsAlternate(bus, states, moves, |moves|);
    InstantReading(r, p, states[0].w.now);
  }

  /** One decision whose publish is `late`: the start of the next search finds it recorded. */
  lemma LateRequest(bus: Bus, s: Sys, x: real, late: nat, lo: real, hi: real)
    returns (states: seq<Sys>, moves: seq<Move>, i: nat)
    requires Wired(bus) && Idle(s) && |s.threads| > 0 && Fine(s, lo, hi) && Searching(s.w, x) && MayAsk(s.w)
    ensures Run(bus, states, moves) && states[0] == s
    ensures var last := states[|states| - 1];
            && Idle(last) && |last.threads| == |s.threads| && Fine(last, lo, hi)
            && Searching(last.w, x) && last.w.now == s.w.now + late && last.w.env.lastRequest == s.w.now
            && |s.w.sent| <= i < |last.w.sent| && s.w.sent <= last.w.sent && Asks(last.w.sent[i], x, s.w.now + late)
    ensures Readings(states, moves, |moves|) == [s.w.now] && Publishes(states, moves, |moves|) == [s.w.now + late]
  {
    hide *;
    var rest;
    states, moves, rest := DecisionRun(bus, s, x, lo, hi);
    RunLength(bus, states, moves);
    var s1 := states[|states| - 1];
    i := |s1.w.sent|;
    LateEnd(s, s1, x, late, rest);
    var more, mvs := LateRun(bus, s1, x, s.w.now, rest, MsgKinematics(Position(s.w)), late, lo, hi);
    RunLength(bus, more, mvs);
    RunJoin(bus, states, moves, more, mvs);
    states, moves := states + more[1..], moves + mvs;
    LateTimes(bus, states, moves, i, x, late);
  }

  /** The services once the late request has been published and the sample is over. */
  lemma LateEnd(s: Sys, s1: Sys, x: real, late: nat, rest: Todo)
    requires Idle(s) && |s.threads| > 0 && Searching(s.w, x) && MayAsk(s.w) && OnlySent(s.w, s1.w)
    requires s1 == With(s, 0, s1.w, Decided(x, s.w.now, rest))
    ensures s.w.env.lastRequest != s.w.now
    ensures |s1.threads| > 0 && s1.threads[0] == Decided(x, s.w.now, rest) && OthersOutside(s1, 0)
    ensures Searching(s1.w, x) && Searching(s1.w.(now := s1.w.now + late), x)
    ensures var last := With(s1, 0, Asked(s1.w.(now := s1.w.now + late), x, s.w.now), Nil);
            && Idle(last) && |last.threads| == |s.threads|
            && Searching(last.w, x) && last.w.now == s.w.now + late && last.w.env.lastRequest == s.w.now
            && |s.w.sent| <= |s1.w.sent| < |last.w.sent| && s.w.sent <= last.w.sent
            && Asks(last.w.sent[|s1.w.sent|], x, s.w.now + late)
  {
    SameSearch(s.w, s1.w, x, late);
    IdleIsOutside(s, s1.w, Decided(x, s.w.now, rest));
    var w2 := s1.w.(now := s1.w.now + late);
    SearchGoesOn(w2, x, s.w.now, 0);
    AskedKeeps(w2, x, s.w.now);
    RunsIdle(s, s1, Asked(w2, x, s.w.now));
    hide OthersOutside, Forwards, Asked, Searching, Ok, Idle, Asks, Decided;
  }

  lemma RunsIdle(s: Sys, s1: Sys, w: World)
    requires Idle(s) && |s.threads| > 0 && |s1.threads| == |s.threads| && s1.threads == s.threads[0 := s1.threads[0]]
    ensures Idle(With(s1, 0, w, Nil)) && |With(s1, 0, w, Nil).threads| == |s.threads|
  {
  }

  lemma SameSearch(w: World, w': World, x: real, d: nat)
    requires Searching(w, x) && OnlySent(w, w')
    ensures Searching(w', x) && Searching(w'.(now := w'.now + d), x)
  {
    hide RouteOk, Motor.Valid, Lookup, Metres, Reached;
  }

  lemma AskedKeeps(w: World, x: real, at: int)
    requires Searching(w, x)
    ensures var w' := Asked(w, x, at);
            && w'.now == w.now && w'.env.lastRequest == at
            && w.sent <= w'.sent && |w'.sent| == |w.sent| + 1 && Asks(w'.sent[|w.sent|], x, w.now)
  {
    hide RouteOk, Motor.Valid, Lookup, Metres, Reached;
  }

  /**
    Decisions are more than 500 ms apart; publishes need not be. For every gap of at most one nanosecond more
    than that, none at all among them, some run publishes two external requests exactly that far apart: the
    first one is delayed by what is missing, the second one not at all.
   */
  lemma PublishesComeClose(bus: Bus, s: Sys, x: real, gap: nat, lo: real, hi: real)
    returns (states: seq<Sys>, moves: seq<Move>, i: nat, j: nat)
    requires Wired(bus) && Idle(s) && |s.threads| > 0 && Rest(s.w, lo, hi) && Searching(s.w, x) && MayAsk(s.w)
    requires gap <= THROTTLE + 1
    ensures Run(bus, states, moves) && states[0] == s
    ensures var sent := states[|states| - 1].w.sent;
            i < j < |sent| && exists at :: Asks(sent[i], x, at) && Asks(sent[j], x, at + gap)
    ensures Readings(states, moves, |moves|) == [s.w.now, s.w.now + THROTTLE + 1]
    ensures Publishes(states, moves, |moves|) == [s.w.now + THROTTLE + 1 - gap, s.w.now + THROTTLE + 1]
  {
    IdleIsFine(s, lo, hi);
    states, moves, i, j := CloseRun(bus, s, x, gap, lo, hi);
  }

  lemma CloseRun(bus: Bus, s: Sys, x: real, gap: nat, lo: real, hi: real)
    returns (states: seq<Sys>, moves: seq<Move>, i: nat, j: nat)
    requires Wired(bus) && Idle(s) && |s.threads| > 0 && Fine(s, lo, hi) && Searching(s.w, x) && MayAsk(s.w)
    requires gap <= THROTTLE + 1
    ensures Run(bus, states, moves) && states[0] == s
    ensures var sent, at := states[|states| - 1].w.sent, s.w.now + THROTTLE + 1 - gap;
            i < j < |sent| && Asks(sent[i], x, at) && Asks(sent[j], x, at + gap)
    ensures Readings(states, moves, |moves|) == [s.w.now, s.w.now + THROTTLE + 1]
    ensures Publishes(states, moves, |moves|) == [s.w.now + THROTTLE + 1 - gap, s.w.now + THROTTLE + 1]
  {
    hide Wired, Fine, Step, Searching, Readings, Publishes, Idle, Asks, Run;
    states, moves, i := LateRequest(bus, s, x, THROTTLE + 1 - gap, lo, hi);
    RunLength(bus, states, moves);
    var s1 := states[|states| - 1];
    var more, mvs, k := NextRequest(bus, s1, x, gap, lo, hi);
    RunLength(bus, more, mvs);
    j := k;
    JoinPair(bus, states, moves, more, mvs, s.w.now, s.w.now + THROTTLE + 1, s1.w.now);
    states, moves := states + more[1..], moves + mvs;
  }

  lemma JoinPair(bus: Bus, states: seq<Sys>, moves: seq<Move>, more: seq<Sys>, mvs: seq<Move>, a: int, b: int, p: int)
    requires Run(bus, states, moves) && Run(bus, more, mvs) && states[|states| - 1] == more[0]
    requires Readings(states, moves, |moves|) == [a] && Publishes(states, moves, |moves|) == [p]
    requires Readings(more, mvs, |mvs|) == [b] == Publishes(more, mvs, |mvs|)
    ensures var all, allMoves := states + more[1..], moves + mvs;
            && Run(bus, all, allMoves) && all[0] == states[0] && all[|all| - 1] == more[|more| - 1]
            && Readings(all, allMoves, |allMoves|) == [a, b] && Publishes(all, allMoves, |allMoves|) == [p, b]
  {
    hide Step, Readings, Publishes;
    RunJoin(bus, states, moves, more, mvs);
    JoinAdds(states, moves, more, mvs, |mvs|);
  }

  /** `gap` later the search goes on: the next decision, published at once. */
  lemma NextRequest(bus: Bus, s: Sys, x: real, gap: nat, lo: real, hi: real)
    returns (states: seq<Sys>, moves: seq<Move>, j: nat)
    requires Wired(bus) && Idle(s) && |s.threads| > 0 && Fine(s, lo, hi) && Searching(s.w, x)
    requires s.w.now + gap - s.w.env.lastRequest > THROTTLE
    ensures Run(bus, states, moves) && states[0] == s
    ensures var sent := states[|states| - 1].w.sent;
            s.w.sent <= sent && |s.w.sent| <= j < |sent| && Asks(sent[j], x, s.w.now + gap)
    ensures Readings(states, moves, |moves|) == [s.w.now + gap] == Publishes(states, moves, |moves|)
  {
    hide Wired, Fine, Step, Searching, Run, Idle, Readings, Publishes, Asks;
    var s2 := s.(w := s.w.(now := s.w.now + gap));
    ClockRun(bus, s, gap, lo, hi);
    LaterSearch(s, s2, x, gap);
    var more, mvs, at := PromptRun(bus, s2, x, lo, hi);
    j := at;
    RunLength(bus, more, mvs);
    WaitsNothing(s, s2, gap);
    JoinAfter(bus, [s, s2], [Clock(gap)], more, mvs);
    states, moves := [s, s2] + more[1..], [Clock(gap)] + mvs;
  }

  lemma ClockRun(bus: Bus, s: Sys, d: nat, lo: real, hi: real)
    requires Wired(bus) && Fine(s, lo, hi)
    ensures var s2 := s.(w := s.w.(now := s.w.now + d)); Run(bus, [s, s2], [Clock(d)]) && Fine(s2, lo, hi)
  {
    var s2 := s.(w := s.w.(now := s.w.now + d));
    ClockStep(bus, s, d, lo, hi);
    hide Wired, Fine, Step;
    StepKeepsFine(bus, s, Clock(d), s2, lo, hi);
  }

  lemma JoinAfter(bus: Bus, states: seq<Sys>, moves: seq<Move>, more: seq<Sys>, mvs: seq<Move>)
    requires Run(bus, states, moves) && Run(bus, more, mvs) && states[|states| - 1] == more[0]
    requires Readings(states, moves, |moves|) == [] == Publishes(states, moves, |moves|)
    ensures var all, allMoves := states + more[1..], moves + mvs;
            && Run(bus, all, allMoves) && all[0] == states[0] && all[|all| - 1] == more[|more| - 1]
            && Readings(all, allMoves, |allMoves|) == Readings(more, mvs, |mvs|)
            && Publishes(all, allMoves, |allMoves|) == Publishes(more, mvs, |mvs|)
  {
    hide Step, Readings, Publishes;
    RunJoin(bus, states, moves, more, mvs);
    JoinAdds(states, moves, more, mvs, |mvs|);
    var r, p := Readings(more, mvs, |mvs|), Publishes(more, mvs, |mvs|);
    assert [] + r == r && [] + p == p;
  }

  /** A decision that is published at once. */
  lemma PromptRun(bus: Bus, s: Sys, x: real, lo: real, hi: real) returns (states: seq<Sys>, moves: seq<Move>, j: nat)
    requires Wired(bus) && Idle(s) && |s.threads| > 0 && Fine(s, lo, hi) && Searching(s.w, x) && MayAsk(s.w)
    ensures Run(bus, states, moves) && states[0] == s
    ensures var sent := states[|states| - 1].w.sent;
            s.w.sent <= sent && |s.w.sent| <= j < |sent| && Asks(sent[j], x, s.w.now)
    ensures Readings(states, moves, |moves|) == [s.w.now] == Publishes(states, moves, |moves|)
  {
    hide Wired, Fine, Step, Searching, Idle, Readings, Publishes;
    var rest;
    states, moves, rest := DecisionRun(bus, s, x, lo, hi);
    var s3 := states[|states| - 1];
    j := |s3.w.sent|;
    var s4 := AskStep(bus, s3, x, s.w.now, rest, lo, hi);
    Extend(bus, states, moves, Take(0), s4, lo, hi);
    states, moves := states + [s4], moves + [Take(0)];
    hide PublishTime;
    InstantTimes(bus, states, moves);
  }

  lemma WaitsNothing(s: Sys, s2: Sys, d: nat)
    ensures Readings([s, s2], [Clock(d)], 1) == [] == Publishes([s, s2], [Clock(d)], 1)
  {
    assert Reading(s, Clock(d)) == [] == PublishTime(s, Clock(d));
    assert Readings([s, s2], [Clock(d)], 0) == [] == Publishes([s, s2], [Clock(d)], 0);
  }

  lemma LaterSearch(s1: Sys, s2: Sys, x: real, gap: nat)
    requires Idle(s1) && Searching(s1.w, x) && s2 == s1.(w := s1.w.(now := s1.w.now + gap))
    ensures Idle(s2) && Searching(s2.w, x)
  {
    hide RouteOk, Motor.Valid, Lookup, Metres, Reached;
  }

  lemma AskStep(bus: Bus, s: Sys, x: real, at: int, rest: Todo, lo: real, hi: real) returns (s': Sys)
    requires |s.threads| > 0 && s.threads[0] == Decided(x, at, rest) && Fine(s, lo, hi)
    ensures Step(bus, s, Take(0), s') && s'.w.sent == s.w.sent + [Sent(MsgRegionRequest(x, 0.0), s.w.now)]
    ensures s'.w.now == s.w.now && PublishTime(s, Take(0)) == [s.w.now]
  {
    SafeIsSane(s, lo, hi);
    s' := Taken(bus, s, 0);
    hide Ok, Safe, Coherent;
  }

  // ---- from the start --------------------------------------------------------------------------------

  lemma {:induction false} StatusKeepsEnv(bus: Bus, hs: seq<Component>, st: Status, w: World)
    requires Ok(w)
    ensures Deliver(bus, hs, MsgStatus(st), w).env == w.env
    decreases |hs|
  {
    hide Ok, Frame;
    if hs != [] {
      StatusKeepsEnv(bus, hs[..|hs| - 1], st, w);
    }
  }

  lemma {:induction false} SequenceKeepsEnv(bus: Bus, cmd: Sequence, w: World)
    requires Wired(bus) && Ok(w)
    ensures var w' := Publish(bus, MsgSequence(cmd), w);
            w'.env == w.env && w'.kin.position == w.kin.position && w'.auto == w.auto && w'.now == w.now
  {
    SoleHandler(bus, MotorSequence, MotorC);
    var w1 := Post(MsgSequence(cmd), w);
    assert Ok(w1);
    DeliverOne(bus, MotorC, MsgSequence(cmd), w1);
    SequenceHandled(bus, cmd, w1);
    HandlersKeepValid(w.motor, cmd, Tick(0, 0, 0));
    var (m, st) := OnSequence(w.motor, cmd);
    hide Frame, RouteOk, OnSequence, Wired;
    var w2 := w1.(motor := m);
    StatusKeepsEnv(bus, HandlersOf(bus, MotorStatus), st, Post(MsgStatus(st), w2));
    assert Handle(bus, MotorC, MsgSequence(cmd), w1) == Publish(bus, MsgStatus(st), w2);
  }

  /** A tuned route whose first node is not at the start. */
  predicate Elsewhere(cmd: RoutePlan) {
    cmd.tuning && cmd.numNodes > 0 && !Reached(cmd.route[0].x, 0.0, 0.0)
  }

  lemma {:induction false} RouteStarts(bus: Bus, cmd: RoutePlan, w: World)
    requires Wired(bus) && Ok(w)
    ensures var w' := AutoOnRoute(bus, cmd, w);
            w'.env == w.env && w'.kin.position == w.kin.position && w'.auto == Start(w.auto, cmd) && w'.now == w.now
  {
    StartOk(w.auto, cmd);
    var w1 := w.(auto := Start(w.auto, cmd));
    assert Ok(w1);
    hide RouteOk, Frame, Wired, NodeSequence, Publish, Start;
    if w1.auto.active {
      SequenceKeepsEnv(bus, NodeSequence(w1.auto, w1.env.cache), w1);
    }
  }

  lemma {:induction false} RouteHandled(bus: Bus, cmd: RoutePlan, w: World)
    requires Wired(bus) && Ok(w)
    ensures Ok(Post(MsgRoute(cmd), w))
    ensures Publish(bus, MsgRoute(cmd), w) == AutoOnRoute(bus, cmd, Post(MsgRoute(cmd), w))
  {
    SoleHandler(bus, AutoDriveCommand, AutonomousC);
    PublishedByDelivery(bus, MsgRoute(cmd), w);
    hide Ok, Frame, Wired, AutoOnRoute, Publish, HandlersOf;
    DeliverOne(bus, AutonomousC, MsgRoute(cmd), Post(MsgRoute(cmd), w));
  }

  lemma {:induction false} RouteSearches(bus: Bus, cmd: RoutePlan, now: int, supply: (real, real))
    requires Wired(bus) && Elsewhere(cmd) && now > THROTTLE
    ensures Ok(Fresh(now, supply))
    ensures var w := Publish(bus, MsgRoute(cmd), Fresh(now, supply));
            Searching(w, 0.0) && MayAsk(w) && w.env.lastRequest == 0 && w.now == now
  {
    FreshOk(now, supply);
    RouteHandled(bus, cmd, Fresh(now, supply));
    RouteStarts(bus, cmd, Post(MsgRoute(cmd), Fresh(now, supply)));
    hide Ok, Wired, Frame, Reached, Publish, AutoOnRoute;
  }

  /** Nothing recorded since the start, nothing published. */
  lemma StillSilent(s: Sys, s': Sys, readings: seq<int>, publishes: seq<int>)
    requires Settled(s, s', readings, publishes) && s'.w.env.lastRequest == s.w.env.lastRequest < s.w.now
    ensures readings == [] == publishes
  {
    assert readings != [] ==> LastOf(s.w.env.lastRequest, readings) >= s.w.now;
  }

  /** From the services as constructed, a route is received. */
  lemma RouteRun(bus: Bus, s: Sys, cmd: RoutePlan, now: int, supply: (real, real))
    returns (states: seq<Sys>, moves: seq<Move>)
    requires Wired(bus) && Idle(s) && |s.threads| > 0 && s.w == Fresh(now, supply) && Elsewhere(cmd) && now > THROTTLE
    ensures Run(bus, states, moves) && states[0] == s
    ensures var s1 := states[|states| - 1];
            && Idle(s1) && |s1.threads| == |s.threads| && Rest(s1.w, 20.0, 20.0)
            && Searching(s1.w, 0.0) && MayAsk(s1.w) && s1.w.now == now
    ensures Readings(states, moves, |moves|) == [] == Publishes(states, moves, |moves|)
  {
    FreshRests(now, supply, 20.0, 20.0);
    RouteSearches(bus, cmd, now, supply);
    states, moves := UndisturbedRunIsPublish(bus, Emit(MsgRoute(cmd)), s, 0, 20.0, 20.0);
    hide Wired, Rest, Step, Publish, Searching, MayAsk, Readings, Publishes, Settled;
    IdleSettles(bus, states, moves);
    StillSilent(s, states[|moves|], Readings(states, moves, |moves|), Publishes(states, moves, |moves|));
  }

  /** From the services as constructed: a route is received, and two requests are published `gap` apart. */
  lemma PublishesComeCloseAtFirst(bus: Bus, s: Sys, cmd: RoutePlan, gap: nat, now: int, supply: (real, real))
    returns (states: seq<Sys>, moves: seq<Move>, i: nat, j: nat)
    requires Wired(bus) && Idle(s) && |s.threads| > 0 && s.w == Fresh(now, supply)
    requires Elsewhere(cmd) && now > THROTTLE && gap <= THROTTLE + 1
    ensures Run(bus, states, moves) && states[0] == s
    ensures var sent := states[|states| - 1].w.sent;
            i < j < |sent| && exists at :: Asks(sent[i], 0.0, at) && Asks(sent[j], 0.0, at + gap)
    ensures Readings(states, moves, |moves|) == [now, now + THROTTLE + 1]
    ensures Publishes(states, moves, |moves|) == [now + THROTTLE + 1 - gap, now + THROTTLE + 1]
  {
    hide Wired, Idle, Rest, Fresh, Run, Searching, MayAsk, Readings, Publishes, Elsewhere;
    states, moves := RouteRun(bus, s, cmd, now, supply);
    RunLength(bus, states, moves);
    var more, mvs;
    more, mvs, i, j := PublishesComeClose(bus, states[|states| - 1], 0.0, gap, 20.0, 20.0);
    RunLength(bus, more, mvs);
    JoinAfter(bus, states, moves, more, mvs);
    states, moves := states + more[1..], moves + mvs;
  }

  // ---- exactly -----------------------------------------------------------------------------------------

  /** Two readings, the first one published late. */
  lemma TwoTimes(d: nat, g: nat, now: int, gap: nat)
    requires d + g > THROTTLE && gap == (if d <= THROTTLE + 1 then THROTTLE + 1 - d else 0)
    ensures DelayedAtMost([now, now + THROTTLE + 1], [now + THROTTLE + 1 - gap, now + THROTTLE + 1], d)
    ensures !Apart([now + THROTTLE + 1 - gap, now + THROTTLE + 1], g)
  {
    var p := [now + THROTTLE + 1 - gap, now + THROTTLE + 1];
    assert p[1] - p[0] == gap <= g;
  }

  const AWAY := RouteCommand(Eco, 1.0, true, 1,
    [Node(10.0, 1000), NO_NODE, NO_NODE, NO_NODE, NO_NODE, NO_NODE, NO_NODE, NO_NODE])

  lemma AwayIsElsewhere()
    ensures Elsewhere(AWAY)
  {
    ReachedExactly(10.0, 0.0, 0.0);
  }

  /** The clock may have to run first: the service takes its last request to be at 0. */
  lemma ClockFirst(bus: Bus, s: Sys, now: int, supply: (real, real)) returns (s1: Sys, later: nat)
    requires Wired(bus) && Idle(s) && s.w == Fresh(now, supply)
    ensures Run(bus, [s, s1], [Clock(later)]) && Idle(s1) && |s1.threads| == |s.threads|
    ensures now + later > THROTTLE && s1.w == Fresh(now + later, supply)
  {
    later := if now > THROTTLE then 0 else THROTTLE + 1 - now;
    s1 := s.(w := s.w.(now := now + later));
    FreshRests(now, supply, 20.0, 20.0);
    IdleIsFine(s, 20.0, 20.0);
    hide Fine, Wired, Rest;
    ClockRun(bus, s, later, 20.0, 20.0);
  }

  lemma CloseFromStart(bus: Bus, s: Sys, gap: nat, now: int, supply: (real, real))
    returns (states: seq<Sys>, moves: seq<Move>, at: int)
    requires Wired(bus) && Idle(s) && |s.threads| > 0 && s.w == Fresh(now, supply) && gap <= THROTTLE + 1
    ensures Run(bus, states, moves) && states[0] == s
    ensures Readings(states, moves, |moves|) == [at, at + THROTTLE + 1]
    ensures Publishes(states, moves, |moves|) == [at + THROTTLE + 1 - gap, at + THROTTLE + 1]
  {
    AwayIsElsewhere();
    hide Wired, Idle, Fresh, Run, Readings, Publishes, Elsewhere;
    var s1, later := ClockFirst(bus, s, now, supply);
    at := now + later;
    WaitsNothing(s, s1, later);
    var more, mvs, i, j := PublishesComeCloseAtFirst(bus, s1, AWAY, gap, at, supply);
    RunLength(bus, more, mvs);
    JoinAfter(bus, [s, s1], [Clock(later)], more, mvs);
    states, moves := [s, s1] + more[1..], [Clock(later)] + mvs;
  }

  lemma LateFromStart(bus: Bus, s: Sys, d: nat, g: nat, now: int, supply: (real, real))
    requires Wired(bus) && Idle(s) && |s.threads| > 0 && s.w == Fresh(now, supply) && d + g > THROTTLE
    ensures !Guaranteed(bus, s, d, g)
  {
    hide Wired, Idle, Fresh, Run, Readings, Publishes, DelayedAtMost, Apart;
    var gap := if d <= THROTTLE + 1 then THROTTLE + 1 - d else 0;
    var states, moves, at := CloseFromStart(bus, s, gap, now, supply);
    RunLength(bus, states, moves);
    TwoTimes(d, g, at, gap);
  }

  /**
    From the start, for every wired bus and every number of threads: delays of at most `d` between a decision
    and its publish leave consecutive publishes more than `g` apart in every run, if and only if d + g <= 500 ms.
    So the 500 ms of the throttle are kept exactly when nothing is delayed at all.
   */
  lemma GuaranteedExactly(bus: Bus, s: Sys, d: nat, g: nat, now: int, supply: (real, real))
    requires Wired(bus) && Idle(s) && |s.threads| > 0 && s.w == Fresh(now, supply)
    ensures Guaranteed(bus, s, d, g) <==> d + g <= THROTTLE
    ensures Guaranteed(bus, s, d, THROTTLE) <==> d == 0
  {
    hide Wired, Idle, Fresh;
    BothWays(bus, s, d, g, now, supply);
    BothWays(bus, s, d, THROTTLE, now, supply);
  }

  lemma BothWays(bus: Bus, s: Sys, d: nat, g: nat, now: int, supply: (real, real))
    requires Wired(bus) && Idle(s) && |s.threads| > 0 && s.w == Fresh(now, supply)
    ensures Guaranteed(bus, s, d, g) <==> d + g <= THROTTLE
  {
    hide Wired, Idle, Fresh, Step, DelayedAtMost;
    if d + g > THROTTLE {
      LateFromStart(bus, s, d, g, now, supply);
    } else {
      forall states, moves | Run(bus, states, moves) && states[0] == s
                             && DelayedAtMost(Readings(states, moves, |moves|), Publishes(states, moves, |moves|), d)
        ensures Apart(Publishes(states, moves, |moves|), g)
      {
        DelaysCost(bus, states, moves, d);
      }
    }
  }
}
