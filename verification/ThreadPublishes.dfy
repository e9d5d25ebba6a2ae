/** When external requests are published, against the clock readings that decided on them. */
module ThreadPublishes {
  import opened Wrappers
  import opened Messages
  import opened Motor
  import opened Physics
  import opened Environment
  import opened Route
  import opened Mesh
  import opened MeshTraffic
  import opened Threads
  import opened ThreadOrder
  import opened ThreadTraffic
  import opened ThreadRequests

  // ---- a request is published before it is recorded --------------------------------------------------

  /** A request that the thread is about to publish is directly followed by its stamp. */
  predicate Followed(t: Todo) {
    t.Next? ==>
      && Followed(t.rest)
      && (t.a.Emit? && t.a.m.MsgRegionRequest? ==> t.rest.Next? && t.rest.a.Stamp?)
  }

  lemma {:induction false} CallsFollowed(hs: seq<Component>, m: Msg, rest: Todo)
    requires Followed(rest)
    ensures Followed(Calls(hs, m, rest))
    decreases |hs|
  {
    if hs != [] {
      CallsFollowed(hs[..|hs| - 1], m, Next(Call(hs[|hs| - 1], m), rest));
    }
  }

  lemma CheckFollowed(x: real, rest: Todo, w: World)
    requires Ok(w) && w.auto.active && Followed(rest)
    ensures Followed(CheckNode(x, rest, w).1)
  {
    hide Ok, NodeSequence, Reached;
    var stop := Next(Emit(MsgSequence(STOP)), Next(Record(x), rest));
    assert Followed(stop);
  }

  lemma BeginFollowed(c: Component, m: Msg, rest: Todo, w: World)
    requires Ok(w) && MsgOk(m, w) && Followed(rest)
    ensures Followed(Begin(c, m, rest, w).1)
  {
    hide Ok, OnSequence, OnTick, Lookup, Store, NodeSequence, Start, Enter, OffMap, Metres, Quiet;
    var r := Leave(LockOf(c), rest);
    assert Followed(r);
    assert forall x :: Followed(Next(Check(x), r));
    assert forall at :: Followed(Next(Stamp(at), r));
    assert Followed(Next(Emit(MsgPowerRequest), r));
  }

  lemma DoFollowed(bus: Bus, a: Act, rest: Todo, w: World)
    requires Ok(w) && Fits(a, w) && Followed(Next(a, rest))
    ensures Followed(Do(bus, a, rest, w).1)
  {
    match a
    case Emit(m) => CallsFollowed(HandlersOf(bus, m.Id()), m, rest);
    case Call(c, m) =>
      BeginFollowed(c, m, rest, w);
      hide Begin, Ok;
    case Check(x) =>
      CheckFollowed(x, rest, w);
      hide CheckNode, Ok;
    case _ => hide Ok;
  }

  predicate AllFollowed(s: Sys) {
    forall i | 0 <= i < |s.threads| :: Followed(s.threads[i])
  }

  lemma StepFollowed(bus: Bus, s: Sys, mv: Move, s': Sys)
    requires Step(bus, s, mv, s') && AllFollowed(s)
    ensures AllFollowed(s')
  {
    if mv.Take? {
      var t := s.threads[mv.i];
      DoFollowed(bus, t.a, t.rest, s.w);
      hide Do, Sane, Enabled, Followed;
    } else {
      hide Sane;
      assert mv.Submit? ==> Followed(Next(mv.a, Nil));
      assert mv.Speak? ==> Followed(Next(Say, s.threads[mv.i]));
    }
  }

  /** Without a stamp to come there is no request to come. */
  lemma {:induction false} NothingPends(t: Todo)
    requires Followed(t) && !Stamping(t)
    ensures Pending(t, EnvironmentRequest) == 0
  {
    if t.Next? {
      NothingPends(t.rest);
    }
  }

  lemma {:induction false} NobodyPends(s: Sys)
    requires AllFollowed(s) && NobodyStamps(s)
    ensures PendingAll(s.threads, EnvironmentRequest) == 0
    decreases |s.threads|
  {
    if s.threads != [] {
      var last := |s.threads| - 1;
      NothingPends(s.threads[last]);
      hide Followed, Stamping, Pending;
      NobodyPends(s.(threads := s.threads[..last]));
    }
  }

  lemma {:induction false} SomethingPends(threads: seq<Todo>, i: nat)
    requires i < |threads| && threads[i].Next? && threads[i].a.Emit? && threads[i].a.m.MsgRegionRequest?
    ensures PendingAll(threads, EnvironmentRequest) > 0
    decreases |threads|
  {
    if i < |threads| - 1 {
      SomethingPends(threads[..|threads| - 1], i);
    }
  }

  // ---- the publishes of a run ------------------------------------------------------------------------

  /** The times at which external requests were published. */
  function RequestTimes(sent: seq<Sent>): seq<int> {
    if sent == [] then []
    else
      var last := sent[|sent| - 1];
      RequestTimes(sent[..|sent| - 1]) + if last.msg.MsgRegionRequest? then [last.at] else []
  }

  lemma TimesSnoc(sent: seq<Sent>, e: Sent)
    ensures RequestTimes(sent + [e]) == RequestTimes(sent) + if e.msg.MsgRegionRequest? then [e.at] else []
  {
    assert (sent + [e])[..|sent|] == sent;
  }

  /** In the first `k` moves. */
  function Publishes(states: seq<Sys>, moves: seq<Move>, k: nat): seq<int>
    requires k <= |moves| < |states|
  {
    if k == 0 then [] else Publishes(states, moves, k - 1) + PublishTime(states[k - 1], moves[k - 1])
  }

  function PublishTime(s: Sys, mv: Move): seq<int> {
    var a := TakenAct(s, mv);
    if a.Some? && a.value.Emit? && a.value.m.MsgRegionRequest? then [s.w.now] else []
  }

  function SentBy(s: Sys, mv: Move): seq<Sent> {
    var a := TakenAct(s, mv);
    if a.Some? && a.value.Emit? then [Sent(a.value.m, s.w.now)] else []
  }

  lemma StepSends(bus: Bus, s: Sys, mv: Move, s': Sys)
    requires Step(bus, s, mv, s')
    ensures s'.w.sent == s.w.sent + SentBy(s, mv)
  {
    if mv.Take? {
      DoSends(bus, s.threads[mv.i].a, s.threads[mv.i].rest, s.w);
    }
    hide Do, Sane, Enabled;
  }

  lemma StepPublishes(bus: Bus, s: Sys, mv: Move, s': Sys)
    requires Step(bus, s, mv, s')
    ensures RequestTimes(s'.w.sent) == RequestTimes(s.w.sent) + PublishTime(s, mv)
    ensures Count(s'.w.sent, EnvironmentRequest) == Count(s.w.sent, EnvironmentRequest) + |PublishTime(s, mv)|
  {
    hide Step, RequestTimes, Count, TakenAct;
    StepSends(bus, s, mv, s');
    if SentBy(s, mv) == [] {
      assert s.w.sent + [] == s.w.sent && RequestTimes(s.w.sent) + [] == RequestTimes(s.w.sent);
    } else {
      TimesSnoc(s.w.sent, SentBy(s, mv)[0]);
      CountSnoc(s.w.sent, SentBy(s, mv)[0], EnvironmentRequest);
    }
  }

  /** Only a publish is recorded as one. */
  lemma DoSends(bus: Bus, a: Act, rest: Todo, w: World)
    requires Ok(w) && Fits(a, w)
    ensures Do(bus, a, rest, w).0.sent == w.sent + if a.Emit? then [Sent(a.m, w.now)] else []
  {
    match a
    case Emit(_) => hide Calls;
    case Call(c, m) =>
      BeginPending(c, m, rest, w, EnvironmentRequest);
      hide Begin, Ok;
    case Check(x) =>
      CheckPending(x, rest, w, EnvironmentRequest);
      hide CheckNode, Ok;
    case _ => hide Ok;
  }

  /** They are the requests in the record of what was published since the start. */
  lemma {:induction false} PublishesAreSent(bus: Bus, states: seq<Sys>, moves: seq<Move>, k: nat)
    requires Run(bus, states, moves) && k < |states|
    ensures RequestTimes(states[k].w.sent) == RequestTimes(states[0].w.sent) + Publishes(states, moves, k)
  {
    hide Step, RequestTimes, PublishTime;
    if k == 0 {
      assert RequestTimes(states[0].w.sent) + [] == RequestTimes(states[0].w.sent);
    } else {
      PublishesAreSent(bus, states, moves, k - 1);
      assert Step(bus, states[k - 1], moves[k - 1], states[k]);
      StepPublishes(bus, states[k - 1], moves[k - 1], states[k]);
      Associates(RequestTimes(states[0].w.sent), Publishes(states, moves, k - 1),
                 PublishTime(states[k - 1], moves[k - 1]));
    }
  }

  lemma Associates(a: seq<int>, b: seq<int>, c: seq<int>)
    ensures (a + b) + c == a + (b + c)
  {
  }

  // ---- every run -------------------------------------------------------------------------------------

  /** Every decision but perhaps the last one is published, and before the next one is taken. */
  predicate Alternate(readings: seq<int>, publishes: seq<int>, start: int, now: int) {
    && |publishes| <= |readings| <= |publishes| + 1
    && start <= now
    && (forall i | 0 <= i < |readings| :: start <= readings[i] <= now)
    && (forall i | 0 <= i < |publishes| :: readings[i] <= publishes[i] <= now)
    && (forall i | 0 <= i < |publishes| && i + 1 < |readings| :: publishes[i] <= readings[i + 1])
  }

  predicate Tallied(s: Sys, readings: seq<int>, publishes: seq<int>) {
    |readings| == |publishes| + PendingAll(s.threads, EnvironmentRequest)
  }

  lemma StepAlternates(bus: Bus, s: Sys, mv: Move, s': Sys, readings: seq<int>, publishes: seq<int>, start: int)
    requires AllOrdered(s) && AllFollowed(s) && Step(bus, s, mv, s')
    requires Alternate(readings, publishes, start, s.w.now) && Tallied(s, readings, publishes)
    ensures var r, p := readings + Reading(s, mv), publishes + PublishTime(s, mv);
            Alternate(r, p, start, s'.w.now) && Tallied(s', r, p)
  {
    hide Step, Alternate, Reading, PublishTime, AllOrdered, AllFollowed, PendingAll;
    StepTallies(bus, s, mv, s');
    TimePasses(bus, s, mv, s');
    OneOf(s, mv);
    AlternateOnce(readings, publishes, start, s.w.now, s'.w.now, Reading(s, mv), PublishTime(s, mv),
                  PendingAll(s.threads, EnvironmentRequest));
  }

  /** Decisions find nothing pending, publishes take one off. */
  lemma StepTallies(bus: Bus, s: Sys, mv: Move, s': Sys)
    requires AllOrdered(s) && AllFollowed(s) && Step(bus, s, mv, s')
    ensures var q, q' := PendingAll(s.threads, EnvironmentRequest), PendingAll(s'.threads, EnvironmentRequest);
            && q' + |PublishTime(s, mv)| == q + |Reading(s, mv)|
            && (Reading(s, mv) != [] ==> q == 0)
            && (PublishTime(s, mv) != [] ==> q > 0)
  {
    hide Step, AllOrdered, AllFollowed, PendingAll, Count, RequestTimes, Decides, Enabled;
    StepTotal(bus, s, mv, s', EnvironmentRequest);
    StepPublishes(bus, s, mv, s');
    OneReading(s, mv, s');
    TimePasses(bus, s, mv, s');
    if Reading(s, mv) != [] {
      DecisionIsAlone(s, mv.i);
      NobodyPends(s);
    }
    if PublishTime(s, mv) != [] {
      SomethingPends(s.threads, mv.i);
    }
  }

  lemma OneOf(s: Sys, mv: Move)
    ensures Reading(s, mv) == [] || Reading(s, mv) == [s.w.now]
    ensures PublishTime(s, mv) == [] || PublishTime(s, mv) == [s.w.now]
  {
  }

  lemma AlternateOnce(readings: seq<int>, publishes: seq<int>, start: int, now: int, now': int,
                      r: seq<int>, p: seq<int>, q: nat)
    requires Alternate(readings, publishes, start, now) && |readings| == |publishes| + q && now <= now'
    requires (r == [] || r == [now]) && (p == [] || p == [now])
    requires (r != [] ==> q == 0 && p == []) && (p != [] ==> q > 0)
    ensures Alternate(readings + r, publishes + p, start, now')
  {
  }

  lemma TimePasses(bus: Bus, s: Sys, mv: Move, s': Sys)
    requires Step(bus, s, mv, s')
    ensures s.w.now <= s'.w.now && (Reading(s, mv) != [] || PublishTime(s, mv) != [] ==> s'.w.now == s.w.now)
    ensures Reading(s, mv) != [] ==> PublishTime(s, mv) == [] && mv.Take? && mv.i < |s.threads| && Enabled(s, mv.i)
    ensures Reading(s, mv) != [] ==> Decides(s.threads[mv.i].a, s.w)
  {
    if mv.Take? {
      DoKeepsTime(bus, s.threads[mv.i].a, s.threads[mv.i].rest, s.w);
    }
    hide Do, Sane, Enabled, Locks, Lookup;
  }

  /** Time passes between actions only. */
  lemma DoKeepsTime(bus: Bus, a: Act, rest: Todo, w: World)
    requires Ok(w) && Fits(a, w)
    ensures Do(bus, a, rest, w).0.now == w.now
  {
    hide Ok, Begin, CheckNode, Calls;
    match a
    case Call(c, m) => BeginKeepsTime(c, m, rest, w);
    case Check(x) => CheckKeepsTime(x, rest, w);
    case _ =>
  }

  lemma BeginKeepsTime(c: Component, m: Msg, rest: Todo, w: World)
    requires Ok(w) && MsgOk(m, w)
    ensures Begin(c, m, rest, w).0.now == w.now
  {
    hide Ok, OnSequence, OnTick, Store, Lookup, Start, Enter, NodeSequence, Heat, Integrate, Metres, OffMap;
  }

  lemma CheckKeepsTime(x: real, rest: Todo, w: World)
    requires Ok(w) && w.auto.active
    ensures CheckNode(x, rest, w).0.now == w.now
  {
    hide Ok, Reached, ReachNode, Moved, NodeSequence;
  }

  /**
    In every state of every interleaving: the i-th decision is published by the i-th publish, which lies between
    the reading that decided and the next reading.
   */
  lemma {:induction false} RunsAlternate(bus: Bus, states: seq<Sys>, moves: seq<Move>, k: nat)
    requires Wired(bus) && Run(bus, states, moves) && Idle(states[0]) && k < |states|
    ensures var r, p := Readings(states, moves, k), Publishes(states, moves, k);
            Alternate(r, p, states[0].w.now, states[k].w.now) && Tallied(states[k], r, p)
    ensures AllFollowed(states[k])
  {
    hide Wired, Step, Alternate, Tallied, Reading, PublishTime, AllFollowed;
    if k == 0 {
      IdleAlternates(states[0]);
    } else {
      RunsAlternate(bus, states, moves, k - 1);
      RunsKeepOrder(bus, states, moves, k - 1);
      assert Step(bus, states[k - 1], moves[k - 1], states[k]);
      hide AllOrdered;
      StepFollowed(bus, states[k - 1], moves[k - 1], states[k]);
      StepAlternates(bus, states[k - 1], moves[k - 1], states[k],
                     Readings(states, moves, k - 1), Publishes(states, moves, k - 1), states[0].w.now);
    }
  }

  lemma IdleAlternates(s: Sys)
    requires Idle(s)
    ensures Alternate([], [], s.w.now, s.w.now) && Tallied(s, [], []) && AllFollowed(s)
  {
    IdlePends(s, EnvironmentRequest);
  }

  // ---- how far apart ---------------------------------------------------------------------------------

  lemma PublishesSpan(readings: seq<int>, publishes: seq<int>, start: int, now: int, i: nat, j: nat)
    requires Alternate(readings, publishes, start, now) && Spaced(readings) && i < j < |publishes|
    ensures publishes[j] - publishes[i] > THROTTLE * (j - i) - (publishes[i] - readings[i])
    ensures i + 1 < j ==> publishes[j] - publishes[i] > THROTTLE * (j - i - 1)
  {
    assert readings[j] <= publishes[j] && publishes[i] <= readings[i + 1];
    hide Alternate, Spaced;
    DecisionsSpan(readings, i, j);
    if i + 1 < j {
      DecisionsSpan(readings, i + 1, j);
    }
  }

  /**
    In every interleaving, from the i-th to the j-th publish it takes more than 500 (j - i) ms less the delay of
    the i-th; and whatever the delays, more than 500 (j - i - 1) ms, so that k publishes span 500 (k - 2) ms.
   */
  lemma RunPublishesSpan(bus: Bus, states: seq<Sys>, moves: seq<Move>, k: nat, i: nat, j: nat)
    requires Wired(bus) && Run(bus, states, moves) && Idle(states[0]) && k < |states|
    requires i < j < |Publishes(states, moves, k)|
    ensures var r, p := Readings(states, moves, k), Publishes(states, moves, k);
            && |p| <= |r|
            && p[j] - p[i] > THROTTLE * (j - i) - (p[i] - r[i])
            && (i + 1 < j ==> p[j] - p[i] > THROTTLE * (j - i - 1))
  {
    hide Wired, Step, Idle, Tallied, AllFollowed, Tracked, Total, Alternate, Spaced, Readings, Publishes;
    RunsAreThrottled(bus, states, moves, k);
    RunsAlternate(bus, states, moves, k);
    var r, p := Readings(states, moves, k), Publishes(states, moves, k);
    PublishesSpan(r, p, states[0].w.now, states[k].w.now, i, j);
    Shorter(r, p, states[0].w.now, states[k].w.now);
  }

  lemma Shorter(readings: seq<int>, publishes: seq<int>, start: int, now: int)
    requires Alternate(readings, publishes, start, now)
    ensures |publishes| <= |readings|
  {
  }

  /** Every decision is published at most `d` after its reading. */
  predicate DelayedAtMost(readings: seq<int>, publishes: seq<int>, d: int) {
    |publishes| <= |readings| && forall i | 0 <= i < |publishes| :: publishes[i] - readings[i] <= d
  }

  predicate Apart(publishes: seq<int>, g: int) {
    forall i | 0 < i < |publishes| :: publishes[i] - publishes[i - 1] > g
  }

  /** All runs from `s` whose delays are at most `d` keep consecutive publishes more than `g` apart. */
  ghost predicate Guaranteed(bus: Bus, s: Sys, d: nat, g: nat) {
    forall states, moves | Run(bus, states, moves) && states[0] == s ::
      DelayedAtMost(Readings(states, moves, |moves|), Publishes(states, moves, |moves|), d) ==>
        Apart(Publishes(states, moves, |moves|), g)
  }

  /** Delays of at most `d` cost at most `d`. */
  lemma DelaysCost(bus: Bus, states: seq<Sys>, moves: seq<Move>, d: nat)
    requires Wired(bus) && Run(bus, states, moves) && Idle(states[0])
    requires DelayedAtMost(Readings(states, moves, |moves|), Publishes(states, moves, |moves|), d)
    ensures Apart(Publishes(states, moves, |moves|), THROTTLE - d)
  {
    var p := Publishes(states, moves, |moves|);
    hide Wired, Idle, Step, Readings, Publishes;
    forall i | 0 < i < |p| ensures p[i] - p[i - 1] > THROTTLE - d {
      RunPublishesSpan(bus, states, moves, |moves|, i - 1, i);
    }
  }

  // ---- between idle threads --------------------------------------------------------------------------

  lemma Grows(readings: seq<int>)
    requires Spaced(readings) && readings != []
    ensures readings[|readings| - 1] - readings[0] >= THROTTLE * (|readings| - 1)
  {
    if |readings| > 1 {
      DecisionsSpan(readings, 0, |readings| - 1);
    }
  }

  /** Nothing is under way: every decision is published, and the last one is recorded. */
  predicate Settled(s: Sys, s': Sys, readings: seq<int>, publishes: seq<int>) {
    && Spaced(readings) && |readings| == |publishes|
    && LastOf(s.w.env.lastRequest, readings) == s'.w.env.lastRequest
    && (forall i | 0 <= i < |readings| :: s.w.now <= readings[i])
  }

  lemma IdleSettles(bus: Bus, states: seq<Sys>, moves: seq<Move>)
    requires Wired(bus) && Run(bus, states, moves) && Idle(states[0]) && Idle(states[|moves|])
    ensures Settled(states[0], states[|moves|], Readings(states, moves, |moves|), Publishes(states, moves, |moves|))
  {
    var last := states[|moves|];
    hide Wired, Step, Readings, Publishes, Spaced, Total, Idle, AllFollowed;
    RunsAreThrottled(bus, states, moves, |moves|);
    RunsAlternate(bus, states, moves, |moves|);
    IdlePends(last, EnvironmentRequest);
    IdleStampsNot(last);
  }

  lemma IdleStampsNot(s: Sys)
    requires Idle(s)
    ensures NobodyStamps(s)
  {
  }

  // ---- runs put together -----------------------------------------------------------------------------

  lemma RunLength(bus: Bus, states: seq<Sys>, moves: seq<Move>)
    requires Run(bus, states, moves)
    ensures |states| == |moves| + 1
  {
  }

  lemma {:induction false} PrefixSame(states: seq<Sys>, moves: seq<Move>, more: seq<Sys>, mvs: seq<Move>, k: nat)
    requires |states| == |moves| + 1 && |more| == |mvs| + 1 && k <= |moves|
    ensures var all, allMoves := states + more[1..], moves + mvs;
            && Readings(all, allMoves, k) == Readings(states, moves, k)
            && Publishes(all, allMoves, k) == Publishes(states, moves, k)
  {
    hide Reading, PublishTime;
    if k > 0 {
      PrefixSame(states, moves, more, mvs, k - 1);
    }
  }

  lemma {:induction false} JoinAdds(states: seq<Sys>, moves: seq<Move>, more: seq<Sys>, mvs: seq<Move>, k: nat)
    requires |states| == |moves| + 1 && |more| == |mvs| + 1 && k <= |mvs| && states[|states| - 1] == more[0]
    ensures var all, allMoves := states + more[1..], moves + mvs;
            && Readings(all, allMoves, |moves| + k) == Readings(states, moves, |moves|) + Readings(more, mvs, k)
            && Publishes(all, allMoves, |moves| + k) == Publishes(states, moves, |moves|) + Publishes(more, mvs, k)
  {
    hide Reading, PublishTime;
    var all, allMoves := states + more[1..], moves + mvs;
    if k == 0 {
      PrefixSame(states, moves, more, mvs, |moves|);
    } else {
      JoinAdds(states, moves, more, mvs, k - 1);
      assert all[|moves| + k - 1] == more[k - 1] && allMoves[|moves| + k - 1] == mvs[k - 1];
      Associates(Readings(states, moves, |moves|), Readings(more, mvs, k - 1), Reading(more[k - 1], mvs[k - 1]));
      Associates(Publishes(states, moves, |moves|), Publishes(more, mvs, k - 1), PublishTime(more[k - 1], mvs[k - 1]));
    }
  }
}
