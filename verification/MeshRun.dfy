/** Runs of whole dispatches, one after the other: what is published over a run. */
module MeshRun {
  import opened Wrappers
  import opened Messages
  import opened Motor
  import opened Physics
  import opened Environment
  import opened Route
  import opened Mesh
  import opened MeshTraffic
  import opened Threads
  import opened ThreadSafety
  import opened ThreadAlone

  datatype Event = Serve(a: Act) | Elapse(d: nat) | Reading(reading: (real, real))

  predicate Proper(e: Event) {
    e.Serve? ==> Entry(e.a)
  }

  function On(bus: Bus, e: Event, w: World): (w': World)
    requires Ok(w) && Proper(e)
    ensures Ok(w')
  {
    match e
    case Serve(a) => Served(bus, a, w)
    case Elapse(d) => w.(now := w.now + d)
    case Reading(reading) => w.(supply := reading)
  }

  function After(bus: Bus, es: seq<Event>, w: World): (w': World)
    requires Ok(w) && forall e | e in es :: Proper(e)
    ensures Ok(w')
  {
    if es == [] then w else On(bus, es[|es| - 1], After(bus, es[..|es| - 1], w))
  }

  predicate NewRoute(e: Event) {
    e.Serve? && e.a.Emit? && e.a.m.MsgRoute?
  }

  /** Events, other than new commands, that take the route from active to inactive. */
  function RoutesEnded(bus: Bus, es: seq<Event>, w: World): nat
    requires Ok(w) && forall e | e in es :: Proper(e)
  {
    if es == [] then 0
    else
      var before := After(bus, es[..|es| - 1], w);
      RoutesEnded(bus, es[..|es| - 1], w)
        + if !NewRoute(es[|es| - 1]) && before.auto.active && !On(bus, es[|es| - 1], before).auto.active then 1 else 0
  }

  /** One event: reports match the route's end, and an ended route is complete in every node. */
  lemma EventTraffic(bus: Bus, e: Event, w: World)
    requires Ok(w) && Proper(e)
    ensures var w' := On(bus, e, w);
            var ended := !NewRoute(e) && w.auto.active && !w'.auto.active;
            && Count(w'.sent, AutoDriveStatus) == Count(w.sent, AutoDriveStatus) + (if ended then 1 else 0)
            && (ended ==>
                  && w'.auto.cmd == w.auto.cmd && w'.auto.status.complete
                  && w'.auto.status.numStats == w.auto.cmd.numNodes)
            && Keeps(w, w')
  {
    if e.Serve? {
      ServeTraffic(bus, e.a, w);
    }
  }

  lemma EndedIsComplete(w: World, w': World)
    requires Ok(w) && Ok(w') && w.auto.active && !w'.auto.active && w'.auto.cmd == w.auto.cmd
    ensures w'.auto.status.complete && w'.auto.status.numStats == w.auto.cmd.numNodes
  {
  }

  lemma ServeTraffic(bus: Bus, a: Act, w: World)
    requires Ok(w) && Entry(a)
    ensures var w' := Served(bus, a, w);
            var ended := !NewRoute(Serve(a)) && w.auto.active && !w'.auto.active;
            && Count(w'.sent, AutoDriveStatus) == Count(w.sent, AutoDriveStatus) + (if ended then 1 else 0)
            && (ended ==>
                  && w'.auto.cmd == w.auto.cmd && w'.auto.status.complete
                  && w'.auto.status.numStats == w.auto.cmd.numNodes)
            && Keeps(w, w')
  {
    hide Ok, Frame, Keeps, Caused, Count, Publish;
    var m, w' := Message(a, w), Served(bus, a, w);
    PublishTraffic(bus, m, w);
    PostKeeps(w, w, m);
    KeepsThen(w, Post(m, w), w');
    EntryReports(a, w, w');
  }

  lemma EntryReports(a: Act, w: World, w': World)
    requires Entry(a) && Ok(w) && Ok(w') && Reports(Message(a, w).Id(), Post(Message(a, w), w), w')
    ensures var ended := !NewRoute(Serve(a)) && w.auto.active && !w'.auto.active;
            && Count(w'.sent, AutoDriveStatus) == Count(w.sent, AutoDriveStatus) + (if ended then 1 else 0)
            && (ended ==>
                  && w'.auto.cmd == w.auto.cmd && w'.auto.status.complete
                  && w'.auto.status.numStats == w.auto.cmd.numNodes)
  {
    hide Ok, Count;
    CountSnoc(w.sent, Sent(Message(a, w), w.now), AutoDriveStatus);
    if !NewRoute(Serve(a)) && w.auto.active && !w'.auto.active {
      EndedIsComplete(w, w');
    }
  }

  /**
    Over any run, AutoDriveStatus is published exactly once per completed route and never otherwise; every
    report says complete and is followed at once by the stop; external requests are more than 500 ms apart.
   */
  lemma {:induction false} RunTraffic(bus: Bus, es: seq<Event>, w: World)
    requires Ok(w) && Paired(w.sent) && Throttled(w) && forall e | e in es :: Proper(e)
    ensures var w' := After(bus, es, w);
            && Count(w'.sent, AutoDriveStatus) == Count(w.sent, AutoDriveStatus) + RoutesEnded(bus, es, w)
            && Paired(w'.sent) && Throttled(w')
  {
    if es != [] {
      RunTraffic(bus, es[..|es| - 1], w);
      EventTraffic(bus, es[|es| - 1], After(bus, es[..|es| - 1], w));
      hide On, Paired, Throttled, Ok, Proper, NewRoute;
    }
  }

  // ---- the rate of external requests ---------------------------------------------------------------

  /** `ks` are positions of external requests, in order. */
  predicate Requests(s: seq<Sent>, ks: seq<nat>) {
    && (forall i | 0 <= i < |ks| :: ks[i] < |s| && s[ks[i]].msg.MsgRegionRequest?)
    && forall i | 0 < i < |ks| :: ks[i - 1] < ks[i]
  }

  /** Any k >= 2 external requests of a run span more than 500 (k - 1) ms. */
  lemma {:induction false} RequestsSpan(w: World, ks: seq<nat>)
    requires Throttled(w) && Requests(w.sent, ks) && |ks| >= 2
    ensures w.sent[ks[|ks| - 1]].at - w.sent[ks[0]].at > THROTTLE * (|ks| - 1)
    decreases |ks|
  {
    var n := |ks|;
    assert w.sent[ks[n - 1]].at - w.sent[ks[n - 2]].at > THROTTLE;
    if n > 2 {
      RequestsSpan(w, ks[..n - 1]);
    }
  }

  lemma RunRequestsSpan(bus: Bus, es: seq<Event>, w: World, ks: seq<nat>)
    requires Ok(w) && Paired(w.sent) && Throttled(w) && forall e | e in es :: Proper(e)
    requires Requests(After(bus, es, w).sent, ks) && |ks| >= 2
    ensures var s := After(bus, es, w).sent; s[ks[|ks| - 1]].at - s[ks[0]].at > THROTTLE * (|ks| - 1)
  {
    RunTraffic(bus, es, w);
    RequestsSpan(After(bus, es, w), ks);
  }

  // ---- what one lookup answers -----------------------------------------------------------------------

  lemma {:induction false} CountCaused(id: MsgId, p: World, w': World, counted: MsgId)
    requires Caused(id, p, w') && p.sent <= w'.sent && !Causes(id, counted)
    ensures Count(w'.sent, counted) == Count(p.sent, counted)
    decreases |w'.sent|
  {
    hide Causes;
    if |w'.sent| > |p.sent| {
      var shorter := w'.(sent := w'.sent[..|w'.sent| - 1]);
      assert w'.sent == shorter.sent + [w'.sent[|w'.sent| - 1]];
      assert p.sent <= shorter.sent;
      CountCaused(id, p, shorter, counted);
    } else {
      assert w'.sent == p.sent;
    }
  }

  /**
    A lookup answers with the first covering entry and asks nothing outside; or, when no entry covers the
    point, it answers nothing and asks outside exactly when the last request is more than 500 ms ago.
   */
  lemma LookupAnswers(bus: Bus, x: real, y: real, w: World)
    requires Ok(w)
    ensures var w' := EnvOnLookup(bus, x, y, w);
            var hit := Lookup(w.env.cache, x, y);
            && Count(w'.sent, InternalEnvData) == Count(w.sent, InternalEnvData) + (if hit.Some? then 1 else 0)
            && Count(w'.sent, EnvironmentRequest) == Count(w.sent, EnvironmentRequest)
                 + (if hit.None? && w.now - w.env.lastRequest > THROTTLE then 1 else 0)
            && (hit.Some? ==> |w.sent| < |w'.sent| && w'.sent[|w.sent|] == Sent(MsgFound(hit.value), w.now))
  {
    hide Ok;
    var hit := Lookup(w.env.cache, x, y);
    if hit.Some? {
      HitAnswers(bus, x, y, w, hit.value);
    } else if w.now - w.env.lastRequest > THROTTLE {
      MissAnswers(bus, x, y, w);
    }
  }

  lemma MissAnswers(bus: Bus, x: real, y: real, w: World)
    requires Ok(w) && Lookup(w.env.cache, x, y).None? && w.now - w.env.lastRequest > THROTTLE
    ensures var w' := EnvOnLookup(bus, x, y, w);
            && Count(w'.sent, InternalEnvData) == Count(w.sent, InternalEnvData)
            && Count(w'.sent, EnvironmentRequest) == Count(w.sent, EnvironmentRequest) + 1
  {
    hide Ok, Traffic, EnvOnLookup;
    RequestTraffic(bus, x, y, w);
    CountSnoc(w.sent, Sent(MsgRegionRequest(x, y), w.now), InternalEnvData);
    CountSnoc(w.sent, Sent(MsgRegionRequest(x, y), w.now), EnvironmentRequest);
  }

  lemma HitAnswers(bus: Bus, x: real, y: real, w: World, entry: nat)
    requires Ok(w) && Lookup(w.env.cache, x, y) == Some(entry)
    ensures var w' := EnvOnLookup(bus, x, y, w);
            && Count(w'.sent, InternalEnvData) == Count(w.sent, InternalEnvData) + 1
            && Count(w'.sent, EnvironmentRequest) == Count(w.sent, EnvironmentRequest)
            && |w.sent| < |w'.sent| && w'.sent[|w.sent|] == Sent(MsgFound(entry), w.now)
  {
    hide Ok, Keeps, Reports, Caused, Publish;
    var m := MsgFound(entry);
    var p, w' := Post(m, w), Publish(bus, m, w);
    PublishTraffic(bus, m, w);
    CountCaused(InternalEnvData, p, w', InternalEnvData);
    CountCaused(InternalEnvData, p, w', EnvironmentRequest);
    CountSnoc(w.sent, Sent(m, w.now), InternalEnvData);
    CountSnoc(w.sent, Sent(m, w.now), EnvironmentRequest);
    assert w'.sent[|w.sent|] == p.sent[|w.sent|];
  }

  // ---- what every run keeps --------------------------------------------------------------------------

  predicate MildEvent(e: Event, lo: real, hi: real) {
    e.Serve? ==> Mild(Submit(0, e.a), lo, hi)
  }

  lemma EventKeepsRest(bus: Bus, e: Event, w: World, lo: real, hi: real)
    requires Wired(bus) && Rest(w, lo, hi) && Proper(e) && MildEvent(e, lo, hi)
    ensures Rest(On(bus, e, w), lo, hi)
  {
    if e.Serve? {
      var states, moves := UndisturbedRunIsPublish(bus, e.a, Sys(w, [Nil]), 0, lo, hi);
    }
  }

  /** Between two dispatches the cache is the motor's status, and both temperatures are in [lo, hi + 600]. */
  lemma {:induction false} RunKeepsRest(bus: Bus, es: seq<Event>, w: World, lo: real, hi: real)
    requires Wired(bus) && Rest(w, lo, hi)
    requires forall e | e in es :: Proper(e) && MildEvent(e, lo, hi)
    ensures Rest(After(bus, es, w), lo, hi)
  {
    if es != [] {
      RunKeepsRest(bus, es[..|es| - 1], w, lo, hi);
      hide Rest, On, Proper, MildEvent, Ok;
      EventKeepsRest(bus, es[|es| - 1], After(bus, es[..|es| - 1], w), lo, hi);
    }
  }
}
