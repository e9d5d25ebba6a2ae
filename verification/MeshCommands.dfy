/** The motor commands of the controller: which ones it publishes, and when. */
module MeshCommands {
  import opened Wrappers
  import opened Messages
  import opened Motor
  import opened Physics
  import opened Environment
  import opened Route
  import opened Mesh
  import opened MeshTraffic
  import opened MeshRoute
  import opened MeshRun
  import opened MeshCache
  import opened MeshMotion
  import opened Threads
  import opened ThreadAlone

  // ---- the last command ----------------------------------------------------------------------------

  function LastCommand(s: seq<Sent>): Option<Sequence> {
    if s == [] then None
    else
      var last := s[|s| - 1];
      if last.msg.MsgSequence? then Some(last.msg.seq_) else LastCommand(s[..|s| - 1])
  }

  lemma LastSnoc(s: seq<Sent>, e: Sent)
    ensures LastCommand(s + [e]) == if e.msg.MsgSequence? then Some(e.msg.seq_) else LastCommand(s)
  {
    assert (s + [e])[..|s|] == s;
  }

  lemma {:induction false} LastKept(id: MsgId, p: World, w': World)
    requires Caused(id, p, w') && p.sent <= w'.sent && !Causes(id, MotorSequence)
    ensures LastCommand(w'.sent) == LastCommand(p.sent)
    decreases |w'.sent|
  {
    if |w'.sent| > |p.sent| {
      var last := w'.sent[|w'.sent| - 1];
      var shorter := w'.(sent := w'.sent[..|w'.sent| - 1]);
      assert Causes(id, last.msg.Id());
      hide Causes;
      assert !last.msg.MsgSequence?;
      assert w'.sent == shorter.sent + [last];
      assert p.sent <= shorter.sent;
      LastKept(id, p, shorter);
    } else {
      assert w'.sent == p.sent;
    }
  }

  /** Exactly one command since `w`: `q`, as the `n`-th new message; and the environment was not asked for. */
  predicate Commanded(q: Sequence, w: World, w': World, n: nat) {
    && |w.sent| + n < |w'.sent| && w'.sent[|w.sent| + n] == Sent(MsgSequence(q), w.now)
    && LastCommand(w'.sent) == Some(q)
    && Count(w'.sent, MotorSequence) == Count(w.sent, MotorSequence) + 1
    && Count(w'.sent, InternalEnvRequest) == Count(w.sent, InternalEnvRequest)
  }

  lemma CausedBy(bus: Bus, m: Msg, w: World)
    requires Ok(w) && MsgOk(m, w)
    ensures var p, w' := Post(m, w), Publish(bus, m, w);
            && Caused(m.Id(), p, w') && p.sent <= w'.sent && |p.sent| == |w.sent| + 1
            && |w.sent| < |w'.sent| && w'.sent[|w.sent|] == Sent(m, w.now) && w.sent <= w'.sent
  {
    PublishTraffic(bus, m, w);
    hide Ok, Publish, Reports, Keeps, Causes;
    var p, w' := Post(m, w), Publish(bus, m, w);
    assert w'.sent[|w.sent|] == p.sent[|w.sent|];
  }

  lemma CommandPublished(bus: Bus, q: Sequence, w: World)
    requires Ok(w)
    ensures var w' := Publish(bus, MsgSequence(q), w);
            Commanded(q, w, w', 0) && w'.auto == w.auto && w'.env.cache == w.env.cache
  {
    var m := MsgSequence(q);
    var p, w' := Post(m, w), Publish(bus, m, w);
    CausedBy(bus, m, w);
    hide Ok, Publish, Count, Caused, LastCommand;
    CountCaused(MotorSequence, p, w', MotorSequence);
    CountSnoc(w.sent, Sent(m, w.now), MotorSequence);
    CountCaused(MotorSequence, p, w', InternalEnvRequest);
    CountSnoc(w.sent, Sent(m, w.now), InternalEnvRequest);
    LastKept(MotorSequence, p, w');
    LastSnoc(w.sent, Sent(m, w.now));
  }

  /** One more message in front. */
  lemma CommandedAfter(m: Msg, q: Sequence, w: World, w': World, n: nat)
    requires Commanded(q, Post(m, w), w', n) && !m.MsgSequence? && !m.MsgLookup?
    ensures Commanded(q, w, w', n + 1)
  {
    CountSnoc(w.sent, Sent(m, w.now), InternalEnvRequest);
    CountSnoc(w.sent, Sent(m, w.now), MotorSequence);
    hide Count, LastCommand;
  }

  /** The handler of `m` has left the controller at `w1`, and publishes the command for it. */
  lemma DriveCommands(bus: Bus, m: Msg, w: World, w1: World)
    requires Ok(w1) && w1.auto.idx < MAX_NODES && w1 == Post(m, w).(auto := w1.auto)
    requires !m.MsgSequence? && !m.MsgLookup?
    ensures w1.auto.env.Some? ==> w1.auto.env.value < |w1.env.cache|
    ensures var q := NodeSequence(w1.auto, w1.env.cache);
            var w' := Publish(bus, MsgSequence(q), w1);
            && Towards(q, w1.auto, w1.env.cache) && Commanded(q, w, w', 1)
            && w'.auto == w1.auto && w'.env.cache == w1.env.cache
  {
    var q := NodeSequence(w1.auto, w1.env.cache);
    CommandPublished(bus, q, w1);
    NodeSequenceDrives(w1.auto, w1.env.cache);
    hide Ok, Publish, NodeSequence, DrivesTo, Count, LastCommand;
    CommandedAfter(m, q, w, Publish(bus, MsgSequence(q), w1), 0);
  }

  lemma {:induction false} SoleServed(bus: Bus, m: Msg, c: Component, w: World)
    requires Ok(w) && MsgOk(m, w) && Wired(bus) && forall d: Component :: m.Id() in Subscribes(d) <==> d == c
    ensures Ok(Post(m, w)) && Publish(bus, m, w) == Handle(bus, c, m, Post(m, w))
  {
    SoleHandler(bus, m.Id(), c);
    assert Ok(Post(m, w));
    hide Ok, Frame, Handle, Wired;
    DeliverOne(bus, c, m, Post(m, w));
    hide Deliver;
  }

  // ---- a route command -----------------------------------------------------------------------------

  /** A route that has just begun, at the position of the last sample. */
  predicate Begun(cmd: RoutePlan, lastPos: real, a: AutoState) {
    && a.cmd == cmd && a.idx == 0 && (a.active <==> cmd.numNodes > 0) && a.env == None
    && a.energy == a.startEnergy == 0.0 && a.startPos == a.lastPos == lastPos && a.usedEnvs == []
    && a.status.cmdId == 1234 && a.status.node == a.status.numStats == a.status.numEnvs == 0 && !a.status.complete
  }

  /**
    A route command resets the controller; with at least one node, the next message is the only motor command,
    towards the first node at the default limit; without one, nothing is published.
   */
  lemma {:induction false} RouteCommands(bus: Bus, cmd: RoutePlan, w: World)
    requires Ok(w) && Wired(bus)
    ensures var w' := Publish(bus, MsgRoute(cmd), w);
            && Begun(cmd, w.auto.lastPos, w'.auto)
            && if cmd.numNodes > 0 then
                 && |w'.sent| > |w.sent| + 1 && w'.sent[|w.sent| + 1].msg.MsgSequence?
                 && var q := w'.sent[|w.sent| + 1].msg.seq_;
                    DrivesTo(q, cmd, cmd.route[0], None) && Commanded(q, w, w', 1)
               else w'.sent == w.sent + [Sent(MsgRoute(cmd), w.now)]
  {
    var m, p := MsgRoute(cmd), Post(MsgRoute(cmd), w);
    SoleServed(bus, m, AutonomousC, w);
    var w1 := p.(auto := Start(p.auto, cmd));
    RouteHandled(bus, cmd, p);
    hide Ok, Wired, Publish, Handle, Frame;
    if cmd.numNodes > 0 {
      DriveCommands(bus, m, w, w1);
      hide NodeSequence, DrivesTo, Count, LastCommand;
    }
  }

  lemma RouteHandled(bus: Bus, cmd: RoutePlan, w: World)
    requires Ok(w)
    ensures var w1 := w.(auto := Start(w.auto, cmd));
            && Ok(w1) && Begun(cmd, w.auto.lastPos, w1.auto)
            && Handle(bus, AutonomousC, MsgRoute(cmd), w)
               == if cmd.numNodes > 0 then Publish(bus, MsgSequence(NodeSequence(w1.auto, w1.env.cache)), w1) else w1
  {
    hide Frame, Publish, NodeSequence, Motor.Valid;
  }

  // ---- a region -----------------------------------------------------------------------------------

  /** On an active route, announcing a region makes the next message the command for it. */
  lemma {:induction false} FoundCommands(bus: Bus, entry: nat, w: World)
    requires Ok(w) && Wired(bus) && entry < |w.env.cache|
    ensures var w' := Publish(bus, MsgFound(entry), w);
            && w'.auto.env == Some(entry) && w'.env.cache == w.env.cache && SameProgress(w.auto, w'.auto)
            && if w.auto.active then
                 && |w'.sent| > |w.sent| + 1 && w'.sent[|w.sent| + 1].msg.MsgSequence?
                 && var q := w'.sent[|w.sent| + 1].msg.seq_;
                    && w.auto.idx < MAX_NODES
                    && DrivesTo(q, w.auto.cmd, w.auto.cmd.route[w.auto.idx], Some(w.env.cache[entry]))
                    && Commanded(q, w, w', 1)
               else w'.sent == w.sent + [Sent(MsgFound(entry), w.now)]
  {
    var m, p := MsgFound(entry), Post(MsgFound(entry), w);
    SoleServed(bus, m, AutonomousC, w);
    var w1 := p.(auto := Enter(p.auto, entry, p.env.cache[entry].id));
    FoundHandled(bus, entry, p);
    hide Ok, Wired, Publish, Handle, Frame, Enter, SameProgress, HandlersOf, Subscribes, Msg.Id;
    if w.auto.active {
      DriveCommands(bus, m, w, w1);
      hide NodeSequence, DrivesTo, Count, LastCommand;
    }
  }

  lemma FoundHandled(bus: Bus, entry: nat, w: World)
    requires Ok(w) && entry < |w.env.cache|
    ensures var w1 := w.(auto := Enter(w.auto, entry, w.env.cache[entry].id));
            && Ok(w1) && w1.auto.env == Some(entry) && SameProgress(w.auto, w1.auto)
            && (w.auto.active ==> w.auto.idx < MAX_NODES)
            && Handle(bus, AutonomousC, MsgFound(entry), w)
               == if w.auto.active then Publish(bus, MsgSequence(NodeSequence(w1.auto, w1.env.cache)), w1) else w1
  {
    hide Frame, Publish, NodeSequence, Motor.Valid;
  }

  // ---- a sample -----------------------------------------------------------------------------------

  /** One step of no duration at no speed. */
  predicate Stops(q: Sequence) { q.cmdId == 0 && q.numSteps == 1 && q.steps[0] == SubCmd(0, 0) }

  /**
    A sample that does not reach the node publishes nothing. One that reaches it commands the way to the next
    node, as its first message; one that ends the route reports, and then stops the motor.
   */
  lemma {:induction false} SampleCommands(bus: Bus, x: real, w: World)
    requires Ok(w) && Wired(bus) && w.auto.active
    ensures var a, w' := w.auto, Sample(bus, x, w);
            && w'.env.cache == w.env.cache && w'.auto.env == a.env && w'.auto.cmd == a.cmd
            && if Crosses(a.cmd.route[a.idx].x, a.lastPos, x) then
                 if a.idx + 1 < a.cmd.numNodes then
                   && w'.auto.active && w'.auto.idx == a.idx + 1
                   && |w'.sent| > |w.sent| && w'.sent[|w.sent|].msg.MsgSequence?
                   && var q := w'.sent[|w.sent|].msg.seq_;
                      && DrivesTo(q, a.cmd, a.cmd.route[a.idx + 1], CurrentRegion(a, w.env.cache))
                      && Commanded(q, w, w', 0)
                 else
                   && !w'.auto.active && !w'.motor.active
                   && |w'.sent| > |w.sent| + 1 && w'.sent[|w.sent|].msg.MsgRouteStatus?
                   && w'.sent[|w.sent| + 1].msg.MsgSequence?
                   && var q := w'.sent[|w.sent| + 1].msg.seq_; Stops(q) && Commanded(q, w, w', 1)
               else w'.sent == w.sent && w'.auto.active && w'.auto.idx == a.idx
  {
    var a := w.auto;
    ActiveHasNode(w);
    ReachedExactly(a.cmd.route[a.idx].x, a.lastPos, x);
    if Crosses(a.cmd.route[a.idx].x, a.lastPos, x) {
      var w1 := w.(auto := ReachNode(a, x));
      NodeLeft(w, x);
      SampleReaches(bus, x, w);
      hide Ok, Wired, Sample, NodeReached, ReachNode, Crosses, Reached;
      if w1.auto.active {
        var q := NodeSequence(w1.auto, w1.env.cache);
        assert NodeReached(bus, w1) == Publish(bus, MsgSequence(q), w1) by { GoesOn(bus, w1); }
        CommandPublished(bus, q, w1);
        NodeSequenceDrives(w1.auto, w1.env.cache);
        hide NodeSequence, DrivesTo, Count, LastCommand, Publish;
      } else {
        EndCommands(bus, w1);
        hide Count, LastCommand, Commanded, Publish;
        CommandsOf(w, w1, NodeReached(bus, w1));
      }
    } else {
      SampleMoves(bus, x, w);
    }
  }

  lemma NodeLeft(w: World, x: real)
    requires Ok(w) && w.auto.active
    ensures var a, w1 := w.auto, w.(auto := ReachNode(w.auto, x));
            && Ok(w1) && w1.auto.cmd == a.cmd && w1.auto.idx == a.idx + 1 && w1.auto.env == a.env
            && (w1.auto.active <==> a.idx + 1 < a.cmd.numNodes) && (w1.auto.active ==> w1.auto.idx < MAX_NODES)
  {
    hide Motor.Valid, StatsOk, EnvsOk, ApproachOk;
  }

  lemma SampleReaches(bus: Bus, x: real, w: World)
    requires Ok(w) && w.auto.active && Reached(w.auto.cmd.route[w.auto.idx].x, w.auto.lastPos, x)
    ensures Ok(w.(auto := ReachNode(w.auto, x)))
    ensures var w2 := NodeReached(bus, w.(auto := ReachNode(w.auto, x)));
            Sample(bus, x, w) == w2.(auto := At(w2.auto, x))
  {
    hide NodeReached, Motor.Valid, Frame;
  }

  lemma SampleMoves(bus: Bus, x: real, w: World)
    requires Ok(w) && w.auto.active && !Reached(w.auto.cmd.route[w.auto.idx].x, w.auto.lastPos, x)
    ensures Sample(bus, x, w) == w.(auto := Moved(w.auto, x))
  {
    hide NodeReached, Motor.Valid, Frame, Reached;
  }

  lemma GoesOn(bus: Bus, w: World)
    requires Ok(w) && w.auto.active
    ensures w.auto.idx < MAX_NODES
    ensures NodeReached(bus, w) == Publish(bus, MsgSequence(NodeSequence(w.auto, w.env.cache)), w)
  {
    hide Publish, NodeSequence, Motor.Valid, Frame;
  }

  lemma CommandsOf(w: World, w1: World, w': World)
    requires w1.sent == w.sent && w1.now == w.now
    ensures forall q, n :: Commanded(q, w1, w', n) == Commanded(q, w, w', n)
  {
  }

  /** The end of a route: the report, and a stop that leaves the motor inactive. */
  lemma {:induction false} EndCommands(bus: Bus, w: World)
    requires Ok(w) && Wired(bus) && !w.auto.active
    ensures var w' := NodeReached(bus, w);
            && |w'.sent| > |w.sent| + 1 && w'.sent[|w.sent|] == Sent(MsgRouteStatus(w.auto.status), w.now)
            && w'.sent[|w.sent| + 1].msg.MsgSequence?
            && var q := w'.sent[|w.sent| + 1].msg.seq_;
               Stops(q) && Commanded(q, w, w', 1) && !w'.motor.active && w'.auto == w.auto
               && w'.env.cache == w.env.cache
  {
    var report := MsgRouteStatus(w.auto.status);
    var p := Post(report, w);
    ReportIsSilent(bus, w);
    CommandPublished(bus, STOP, p);
    StopIsServed(bus, p);
    PublishTraffic(bus, MsgSequence(STOP), p);
    hide Ok, Wired, NodeReached, Publish, Count, LastCommand, Traffic;
    CommandedAfter(report, STOP, w, Publish(bus, MsgSequence(STOP), p), 0);
    assert Publish(bus, MsgSequence(STOP), p).sent[|w.sent|] == p.sent[|w.sent|];
  }

  lemma {:induction false} StopIsServed(bus: Bus, w: World)
    requires Ok(w) && Wired(bus)
    ensures !Publish(bus, MsgSequence(STOP), w).motor.active
  {
    SoleServed(bus, MsgSequence(STOP), MotorC, w);
    SequenceHandled(bus, STOP, Post(MsgSequence(STOP), w));
    hide Ok, Wired, Publish, Handle;
  }

  // ---- asking for the environment -------------------------------------------------------------------

  /** No current region, or one whose x-range does not hold `x`. */
  predicate OffRegion(e: Option<Region>, x: real) {
    e.None? || !CoversX(e.value, x)
  }

  /** A sample asks for the environment, once and first of all, exactly if tuning is on and it left its region. */
  lemma {:induction false} KinematicsAsks(bus: Bus, k: Kinematics, w: World)
    requires Ok(w) && Wired(bus) && w.auto.active
    ensures var w', x := AutoOnKinematics(bus, k, w), Metres(k.position);
            var asks := w.auto.cmd.tuning && OffRegion(CurrentRegion(w.auto, w.env.cache), x);
            && Count(w'.sent, InternalEnvRequest) == Count(w.sent, InternalEnvRequest) + (if asks then 1 else 0)
            && (asks ==> |w'.sent| > |w.sent| && w'.sent[|w.sent|] == Sent(MsgLookup(x, 0.0), w.now))
  {
    var x := Metres(k.position);
    var w1 := AskEnvironment(bus, x, w);
    ActiveHasNode(w);
    Asked(bus, x, w);
    hide Ok, Wired, AskEnvironment, Sample, Metres, OffMap, Count;
    SampleCommands(bus, x, w1);
    hide Crosses, DrivesTo, LastCommand;
  }

  lemma {:induction false} Asked(bus: Bus, x: real, w: World)
    requires Ok(w) && w.auto.active
    ensures var w1, asks := AskEnvironment(bus, x, w), OffRegion(CurrentRegion(w.auto, w.env.cache), x);
            && Count(w1.sent, InternalEnvRequest)
               == Count(w.sent, InternalEnvRequest) + (if w.auto.cmd.tuning && asks then 1 else 0)
            && (w.auto.cmd.tuning && asks ==>
                  |w1.sent| > |w.sent| && w1.sent[|w.sent|] == Sent(MsgLookup(x, 0.0), w.now))
            && w.sent <= w1.sent
  {
    assert OffMap(w.auto, w.env.cache, x) == OffRegion(CurrentRegion(w.auto, w.env.cache), x);
    hide Ok, OffMap, OffRegion, Publish, Count, Caused, Frame;
    if w.auto.cmd.tuning && OffMap(w.auto, w.env.cache, x) {
      LookupAsks(bus, x, w);
    }
  }

  lemma {:induction false} LookupAsks(bus: Bus, x: real, w: World)
    requires Ok(w)
    ensures var m, w' := MsgLookup(x, 0.0), Publish(bus, MsgLookup(x, 0.0), w);
            && Count(w'.sent, InternalEnvRequest) == Count(w.sent, InternalEnvRequest) + 1
            && |w'.sent| > |w.sent| && w'.sent[|w.sent|] == Sent(m, w.now) && w.sent <= w'.sent
  {
    var m := MsgLookup(x, 0.0);
    CausedBy(bus, m, w);
    hide Ok, Publish, Count, Caused, Frame;
    CountCaused(InternalEnvRequest, Post(m, w), Publish(bus, m, w), InternalEnvRequest);
    CountSnoc(w.sent, Sent(m, w.now), InternalEnvRequest);
  }

  // ---- every run ------------------------------------------------------------------------------------

  /** On an active route, the last motor command is the one to the current node under the current environment. */
  predicate Led(w: World) {
    w.auto.active ==> LastCommand(w.sent).Some? && Towards(LastCommand(w.sent).value, w.auto, w.env.cache)
  }

  /** Nothing that the command depends on has changed. */
  predicate SameLead(w: World, w': World) {
    SameCourse(w.auto, w'.auto) && w'.env.cache == w.env.cache && LastCommand(w'.sent) == LastCommand(w.sent)
  }

  lemma StillLed(w: World, w': World)
    requires Led(w) && SameLead(w, w')
    ensures Led(w')
  {
    hide DrivesTo, LastCommand;
  }

  /** Messages that have nothing to do with the route. */
  predicate Unrelated(id: MsgId) {
    id in {StateRequest, StateData, ThermalRequest, ThermalData, PowerRequest, PowerData, MotorStatus, Log}
  }

  lemma {:induction false} UnrelatedLeads(bus: Bus, m: Msg, w: World)
    requires Ok(w) && MsgOk(m, w) && Unrelated(m.Id())
    ensures SameLead(w, Publish(bus, m, w))
  {
    CausedBy(bus, m, w);
    UnrelatedKeeps(bus, m, w);
    hide *;
    LastKept(m.Id(), Post(m, w), Publish(bus, m, w));
    KeptLead(m, w, Publish(bus, m, w));
  }

  lemma UnrelatedKeeps(bus: Bus, m: Msg, w: World)
    requires Ok(w) && MsgOk(m, w) && Unrelated(m.Id())
    ensures !m.MsgSequence? && !Causes(m.Id(), MotorSequence)
    ensures SameCourse(w.auto, Publish(bus, m, w).auto) && Publish(bus, m, w).env.cache == w.env.cache
  {
    hide Ok, Publish;
  }

  predicate SameCourse(a: AutoState, b: AutoState) {
    b.cmd == a.cmd && b.idx == a.idx && b.active == a.active && b.env == a.env
  }

  lemma KeptLead(m: Msg, w: World, w': World)
    requires SameCourse(w.auto, w'.auto) && w'.env.cache == w.env.cache && !m.MsgSequence?
    requires LastCommand(w'.sent) == LastCommand(Post(m, w).sent)
    ensures SameLead(w, w')
  {
    PostLeads(m, w);
    hide LastCommand;
  }

  lemma PostLeads(m: Msg, w: World)
    requires !m.MsgSequence?
    ensures SameLead(w, Post(m, w))
  {
    LastSnoc(w.sent, Sent(m, w.now));
    hide LastCommand;
  }

  lemma {:induction false} FoundLeads(bus: Bus, entry: nat, w: World)
    requires Ok(w) && Wired(bus) && entry < |w.env.cache|
    ensures Led(Publish(bus, MsgFound(entry), w))
  {
    FoundCommands(bus, entry, w);
    hide Ok, Wired, Publish, DrivesTo, LastCommand, Count;
  }

  lemma {:induction false} LookupLeads(bus: Bus, x: real, y: real, w: World)
    requires Ok(w) && Wired(bus) && Led(w)
    ensures Led(Publish(bus, MsgLookup(x, y), w))
  {
    var m := MsgLookup(x, y);
    var p := Post(m, w);
    SoleServed(bus, m, EnvironmentC, w);
    PostLeads(m, w);
    StillLed(w, p);
    assert Handle(bus, EnvironmentC, m, p) == EnvOnLookup(bus, x, y, p);
    hide Handle, Publish, Ok, Wired, Led, SameLead, Frame;
    LookupHandled(bus, x, y, p);
  }

  lemma {:induction false} LookupHandled(bus: Bus, x: real, y: real, w: World)
    requires Ok(w) && Wired(bus) && Led(w)
    ensures Led(EnvOnLookup(bus, x, y, w))
  {
    hide Ok, Wired, Publish, Led, Frame;
    var hit := Lookup(w.env.cache, x, y);
    if hit.Some? {
      FoundLeads(bus, hit.value, w);
    } else if w.now - w.env.lastRequest > THROTTLE {
      RequestTraffic(bus, x, y, w);
      MissLeads(x, y, w);
    }
  }

  lemma MissLeads(x: real, y: real, w: World)
    requires Led(w)
    ensures Led(Requested(x, y, w))
  {
    LastSnoc(w.sent, Sent(MsgRegionRequest(x, y), w.now));
    hide LastCommand, DrivesTo;
  }

  lemma {:induction false} AskLeads(bus: Bus, x: real, w: World)
    requires Ok(w) && Wired(bus) && Led(w)
    ensures Led(AskEnvironment(bus, x, w))
  {
    assert w.auto.env.Some? ==> w.auto.env.value < |w.env.cache|;
    hide Ok, Wired, Led, Publish, OffMap;
    if w.auto.cmd.tuning && OffMap(w.auto, w.env.cache, x) {
      LookupLeads(bus, x, 0.0, w);
    }
  }

  lemma {:induction false} SampleLeads(bus: Bus, x: real, w: World)
    requires Ok(w) && Wired(bus) && w.auto.active && Led(w)
    ensures Led(Sample(bus, x, w))
  {
    ActiveHasNode(w);
    SampleCommands(bus, x, w);
    hide Ok, Wired, Sample, DrivesTo, LastCommand, Count, Crosses;
  }

  lemma {:induction false} KinematicsLeads(bus: Bus, k: Kinematics, w: World)
    requires Ok(w) && Wired(bus) && Led(w)
    ensures Led(AutoOnKinematics(bus, k, w))
  {
    if w.auto.active {
      ActiveHasNode(w);
      hide Ok, Wired, Led, AskEnvironment, Sample, Metres;
      AskLeads(bus, Metres(k.position), w);
      SampleLeads(bus, Metres(k.position), AskEnvironment(bus, Metres(k.position), w));
    }
  }

  lemma {:induction false} RequestLeads(bus: Bus, w: World)
    requires Ok(w) && Wired(bus) && Led(w)
    ensures Led(Publish(bus, MsgKinematicsRequest, w))
  {
    var w1 := Post(MsgKinematicsRequest, w);
    var w2 := Post(MsgKinematics(Position(w)), w1);
    PostLeads(MsgKinematicsRequest, w);
    PostLeads(MsgKinematics(Position(w)), w1);
    hide Ok, Wired, Led, SameLead, Publish, AutoOnKinematics, Position;
    StillLed(w, w1);
    StillLed(w1, w2);
    RequestSamples(bus, w);
    KinematicsLeads(bus, Position(w), w2);
  }

  lemma {:induction false} TickHandledLeads(bus: Bus, c: Component, t: Tick, w: World)
    requires Ok(w) && Wired(bus) && Led(w)
    ensures Led(Handle(bus, c, MsgTick(t), w))
  {
    hide Ok, Wired, Led, SameLead, AutoOnTick, MotorOnTick, Frame;
    if c == AutonomousC {
      AutoTickLeads(bus, w);
    } else if c == MotorC {
      MotorTickLeads(bus, t, w);
    } else {
      QuietTickLeads(bus, c, t, w);
      StillLed(w, Handle(bus, c, MsgTick(t), w));
    }
  }

  lemma QuietTickLeads(bus: Bus, c: Component, t: Tick, w: World)
    requires Ok(w) && c != AutonomousC && c != MotorC
    ensures SameLead(w, Handle(bus, c, MsgTick(t), w))
  {
    hide Ok, Frame, Integrate, Heat, LastCommand;
  }

  lemma {:induction false} AutoTickLeads(bus: Bus, w: World)
    requires Ok(w) && Wired(bus) && Led(w)
    ensures Led(AutoOnTick(bus, w))
  {
    hide Ok, Wired, Led, SameLead, Publish, Frame;
    if w.auto.active {
      RequestLeads(bus, w);
      var w1 := Publish(bus, MsgKinematicsRequest, w);
      UnrelatedLeads(bus, MsgPowerRequest, w1);
      StillLed(w1, Publish(bus, MsgPowerRequest, w1));
    }
  }

  lemma {:induction false} MotorTickLeads(bus: Bus, t: Tick, w: World)
    requires Ok(w) && Led(w)
    ensures Led(MotorOnTick(bus, t, w))
  {
    HandlersKeepValid(w.motor, w.motor.cmd, t);
    hide Frame, RouteOk, OnTick, Publish, Led, SameLead, Motor.Valid;
    var (s, st) := OnTick(w.motor, t);
    var w1 := w.(motor := s);
    SameButMotor(w, w1);
    StillLed(w, w1);
    if st.Some? {
      UnrelatedLeads(bus, MsgStatus(st.value), w1);
      StillLed(w1, Publish(bus, MsgStatus(st.value), w1));
    }
  }

  lemma SameButMotor(w: World, w1: World)
    requires w1 == w.(motor := w1.motor)
    ensures SameLead(w, w1)
  {
  }

  lemma {:induction false} TickLeads(bus: Bus, hs: seq<Component>, t: Tick, w: World)
    requires Ok(w) && Wired(bus) && Led(w)
    ensures Led(Deliver(bus, hs, MsgTick(t), w))
    decreases |hs|
  {
    hide Ok, Wired, Led, Handle, Frame;
    if hs != [] {
      TickLeads(bus, hs[..|hs| - 1], t, w);
      TickHandledLeads(bus, hs[|hs| - 1], t, Deliver(bus, hs[..|hs| - 1], MsgTick(t), w));
    }
  }

  /** Region data for another region than the current one. */
  lemma {:induction false} RegionLeads(bus: Bus, e: Region, w: World)
    requires Ok(w) && Wired(bus) && Led(w) && (w.auto.env.Some? ==> w.env.cache[w.auto.env.value].id != e.id)
    ensures Led(Publish(bus, MsgRegion(e), w))
  {
    var m := MsgRegion(e);
    var p, w' := Post(m, w), Publish(bus, m, w);
    RegionStored(bus, e, w);
    CausedBy(bus, m, w);
    LastSnoc(w.sent, Sent(m, w.now));
    EntryStays(w, e);
    hide Ok, Wired, Publish, Reports, Keeps, Count, Caused, LastCommand, Store, DrivesTo;
    LastKept(EnvironmentData, p, w');
  }

  lemma EntryStays(w: World, e: Region)
    requires Ok(w) && (w.auto.env.Some? ==> w.env.cache[w.auto.env.value].id != e.id)
    ensures var c := Store(w.env.cache, e);
            w.auto.env.Some? ==>
              w.auto.env.value < |w.env.cache| <= |c| && c[w.auto.env.value] == w.env.cache[w.auto.env.value]
  {
  }

  /** Not a motor command from outside, and no new data for the current region. */
  predicate Harmless(e: Event, w: World)
    requires Ok(w)
  {
    e.Serve? && e.a.Emit? ==>
      && !e.a.m.MsgSequence?
      && (e.a.m.MsgRegion? && w.auto.env.Some? ==> w.env.cache[w.auto.env.value].id != e.a.m.region.id)
  }

  lemma {:induction false} ServeLeads(bus: Bus, a: Act, w: World)
    requires Ok(w) && Wired(bus) && Led(w) && Entry(a) && Harmless(Serve(a), w)
    ensures Led(Served(bus, a, w))
  {
    var m := Message(a, w);
    hide Ok, Wired, Led, SameLead, Publish, Begun, DrivesTo;
    if m.MsgTick? {
      TickServedLeads(bus, m.tick, w);
    } else if m.MsgRoute? {
      RouteLeads(bus, m.route, w);
    } else if m.MsgRegion? {
      RegionLeads(bus, m.region, w);
    } else if m.MsgKinematicsRequest? {
      RequestLeads(bus, w);
    } else {
      UnrelatedLeads(bus, m, w);
      StillLed(w, Publish(bus, m, w));
    }
  }

  lemma {:induction false} TickServedLeads(bus: Bus, t: Tick, w: World)
    requires Ok(w) && Wired(bus) && Led(w)
    ensures Led(Publish(bus, MsgTick(t), w))
  {
    var p := Post(MsgTick(t), w);
    PostLeads(MsgTick(t), w);
    StillLed(w, p);
    assert Ok(p);
    hide Ok, Wired, Led, SameLead, Deliver, Frame, HandlersOf;
    TickLeads(bus, HandlersOf(bus, PhysicsTick), t, p);
  }

  lemma {:induction false} RouteLeads(bus: Bus, cmd: RoutePlan, w: World)
    requires Ok(w) && Wired(bus)
    ensures Led(Publish(bus, MsgRoute(cmd), w))
  {
    RouteCommands(bus, cmd, w);
    hide Ok, Wired, Publish, DrivesTo, LastCommand, Count;
  }

  /**
    Over every run of dispatches in which nobody else commands the motor and no new data for the current region
    come in: on an active route the last motor command is always the one to the current node under the current
    environment. A route command makes it so, whatever came before.
   */
  lemma {:induction false} RunIsLed(bus: Bus, es: seq<Event>, w: World)
    requires Ok(w) && Wired(bus) && Led(w) && forall e | e in es :: Proper(e)
    requires forall i | 0 <= i < |es| :: Harmless(es[i], After(bus, es[..i], w))
    ensures Led(After(bus, es, w))
  {
    hide Ok, Wired, Led, Proper, Harmless;
    if es != [] {
      var init, e := es[..|es| - 1], es[|es| - 1];
      var w1 := After(bus, init, w);
      forall i | 0 <= i < |init| ensures Harmless(init[i], After(bus, init[..i], w)) {
        assert init[..i] == es[..i] && init[i] == es[i];
      }
      RunIsLed(bus, init, w);
      EventLeads(bus, e, w1);
    }
  }

  lemma {:induction false} EventLeads(bus: Bus, e: Event, w: World)
    requires Ok(w) && Wired(bus) && Led(w) && Proper(e) && Harmless(e, w)
    ensures Led(On(bus, e, w))
  {
    if e.Serve? {
      hide Ok, Wired, Led, Harmless, Served;
      ServeLeads(bus, e.a, w);
    } else {
      hide Ok, LastCommand, DrivesTo, Wired;
    }
  }
}
