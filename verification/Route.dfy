/** AutonomousService without its bus: the state of a route and the pure steps of its handlers. */
module Route {
  import opened Wrappers
  import opened Messages

  /**
    `from` and `seen` are history: the last position before the current node became current, and the
    samples since. `env` is the position of the cache entry the shared pointer refers to.
   */
  datatype AutoState = AutoState(
    cmd: RoutePlan, idx: nat, active: bool, env: Option<nat>, status: RouteStatus,
    energy: real, startEnergy: real, startPos: real, lastPos: real, usedEnvs: seq<uint32>,
    from: real, seen: seq<real>)

  const ZERO_STATS := NodeStats(0.0, 0.0, 0.0, 0.0)

  function FreshStatus(cmdId: uint32): RouteStatus {
    RouteStatus(cmdId, 0, false, 0,
      [ZERO_STATS, ZERO_STATS, ZERO_STATS, ZERO_STATS, ZERO_STATS, ZERO_STATS, ZERO_STATS, ZERO_STATS], 0, [0, 0, 0, 0])
  }

  const NO_NODE := Node(0.0, 0)

  /** Before the first command. */
  const ROUTELESS := AutoState(
    RouteCommand(Eco, 0.0, false, 0, [NO_NODE, NO_NODE, NO_NODE, NO_NODE, NO_NODE, NO_NODE, NO_NODE, NO_NODE]),
    0, false, None, FreshStatus(0), 0.0, 0.0, 0.0, 0.0, [], 0.0, [])

  predicate Distinct<T(==)>(s: seq<T>) {
    forall i, j | 0 <= i < j < |s| :: s[i] != s[j]
  }

  /** Progress: the three indices agree, and activity and completion are determined by them. */
  predicate ProgressOk(a: AutoState) {
    && a.idx <= a.cmd.numNodes
    && (a.active <==> a.idx < a.cmd.numNodes)
    && a.status.numStats == a.status.node == a.idx
    && (a.status.complete <==> a.cmd.numNodes > 0 && a.idx == a.cmd.numNodes)
  }

  /** Recorded statistics are cumulative: every node's interval starts at the start of the route. */
  predicate StatsOk(a: AutoState) {
    && |a.status.stats| == MAX_NODES
    && a.startEnergy == 0.0
    && forall i | 0 <= i < a.status.numStats && i < MAX_NODES ::
         a.status.stats[i].initial == 0.0 && a.status.stats[i].total == a.status.stats[i].final
  }

  /** used_envs_ is what the telemetry reports. */
  predicate EnvsOk(a: AutoState) {
    && |a.status.envIds| == MAX_ENVS
    && a.status.numEnvs <= MAX_ENVS
    && a.usedEnvs == a.status.envIds[..a.status.numEnvs]
    && Distinct(a.usedEnvs)
  }

  /** Strictly on the same side of `t`. */
  predicate SameSide(t: real, a: real, b: real) {
    (a < t && b < t) || (t < a && t < b)
  }

  predicate Away(t: real, x: real) {
    t - x >= 0.1 || x - t >= 0.1
  }

  predicate Approaching(t: real, from: real, seen: seq<real>) {
    forall i | 0 <= i < |seen| :: SameSide(t, from, seen[i]) && Away(t, seen[i])
  }

  /** While a node is current, every sample so far lies on the side it was approached from, off the target. */
  predicate ApproachOk(a: AutoState) {
    && a.lastPos == (if a.seen == [] then a.from else a.seen[|a.seen| - 1])
    && (a.active && a.idx < MAX_NODES ==> Approaching(a.cmd.route[a.idx].x, a.from, a.seen))
  }

  predicate RouteOk(a: AutoState) {
    ProgressOk(a) && StatsOk(a) && EnvsOk(a) && ApproachOk(a)
  }

  function Abs(r: real): real { if r < 0.0 then -r else r }

  /** Within 0.1 m, or on the other side of (or exactly on) the target than the previous position. */
  predicate Reached(target: real, last: real, x: real) {
    Abs(target - x) < 0.1 || (target - last) * (target - x) <= 0.0
  }

  lemma ReachedExactly(target: real, last: real, x: real)
    ensures Reached(target, last, x) <==> !(SameSide(target, last, x) && Away(target, x))
  {
    var p, c := target - last, target - x;
    if p > 0.0 && c > 0.0 {
      assert p * c > 0.0;
    } else if p < 0.0 && c < 0.0 {
      assert p * c == (-p) * (-c) > 0.0;
    } else if p >= 0.0 && c <= 0.0 {
      assert p * (-c) >= 0.0;
      assert p * c == -(p * (-c));
    } else {
      assert (-p) * c >= 0.0;
      assert p * c == -((-p) * c);
    }
  }

  function Start(a: AutoState, cmd: RoutePlan): AutoState {
    AutoState(cmd, 0, cmd.numNodes > 0, None, FreshStatus(1234), 0.0, 0.0, a.lastPos, a.lastPos, [], a.lastPos, [])
  }

  /** Neither the route nor the position in it has changed. */
  predicate SameProgress(a: AutoState, b: AutoState) {
    && b.cmd == a.cmd && b.idx == a.idx && b.active == a.active && b.lastPos == a.lastPos
    && b.status.stats == a.status.stats && b.status.complete == a.status.complete
  }

  /** The pointer to the current environment, and the telemetry of the regions used. */
  function Enter(a: AutoState, entry: nat, id: uint32): (r: AutoState)
    requires RouteOk(a)
    ensures RouteOk(r) && r.env == Some(entry) && SameProgress(a, r)
    ensures a.usedEnvs <= r.usedEnvs && (id in r.usedEnvs || |r.usedEnvs| == MAX_ENVS)
    ensures forall i | 0 <= i < |r.usedEnvs| :: r.usedEnvs[i] in a.usedEnvs || r.usedEnvs[i] == id
  {
    if id !in a.usedEnvs && |a.usedEnvs| < MAX_ENVS then
      var n := a.status.numEnvs;
      var r := a.(env := Some(entry), usedEnvs := a.usedEnvs + [id],
                  status := a.status.(envIds := a.status.envIds[n := id], numEnvs := n + 1));
      assert r.status.envIds[..n + 1] == a.status.envIds[..n] + [id];
      r
    else a.(env := Some(entry))
  }

  /** The statistics and the indices after a node was reached at `x`; the position itself is recorded last. */
  function ReachNode(a: AutoState, x: real): (r: AutoState)
    requires RouteOk(a) && a.active
    ensures RouteOk(r) && r.cmd == a.cmd && r.idx == a.idx + 1 && r.lastPos == a.lastPos && r.env == a.env
    ensures r.status.stats[a.idx].final == a.energy * 1000.0
    ensures forall i | 0 <= i < MAX_NODES && i != a.idx :: r.status.stats[i] == a.status.stats[i]
  {
    var initial, final := a.startEnergy * 1000.0, a.energy * 1000.0;
    var moved := Abs(x - a.startPos);
    var s := NodeStats(initial, final, if moved > 0.01 then (final - initial) / moved else 0.0, final - initial);
    var n := a.status.numStats;
    var i := a.idx + 1;
    var done := i >= a.cmd.numNodes;
    a.(idx := i, active := !done, from := a.lastPos, seen := [],
       status := a.status.(stats := if n < 8 then a.status.stats[n := s] else a.status.stats,
                           numStats := if n < 8 then n + 1 else n, node := i,
                           complete := if done then true else a.status.complete))
  }

  function Moved(a: AutoState, x: real): (r: AutoState)
    requires RouteOk(a) && a.active && !Reached(a.cmd.route[a.idx].x, a.lastPos, x)
    ensures RouteOk(r) && r.idx == a.idx && r.active && r.lastPos == x && r.seen == a.seen + [x]
  {
    ReachedExactly(a.cmd.route[a.idx].x, a.lastPos, x);
    a.(lastPos := x, seen := a.seen + [x])
  }

  /** Position recorded when a node was just reached, or outside a route. */
  function At(a: AutoState, x: real): AutoState {
    a.(lastPos := x, from := x, seen := [])
  }

  /** static_cast<int16_t>: towards zero; what C++ leaves undefined saturates here. */
  function ToInt16(r: real): int16 {
    var t := if r >= 0.0 then r.Floor else -((-r).Floor);
    if t < -0x8000 then -0x8000 else if t > 0x7fff then 0x7fff else t
  }

  function TargetSpeed(a: AutoState, cache: seq<Region>): real
    requires a.env.Some? ==> a.env.value < |cache|
  {
    var limit := if a.env.Some? then cache[a.env.value].maxSpeed else 1000.0;
    var scaled := match a.cmd.mode
      case Eco => limit * 0.75
      case Performance => limit * 1.10
      case ManualTuning => limit * a.cmd.gain;
    if a.cmd.tuning && a.env.Some? && Abs(cache[a.env.value].incline) > 5.0 then scaled / 2.0 else scaled
  }

  /** The motor sequence towards the current node. */
  function NodeSequence(a: AutoState, cache: seq<Region>): Sequence
    requires a.idx < MAX_NODES && (a.env.Some? ==> a.env.value < |cache|)
  {
    OneStep(999, SubCmd(ToInt16(TargetSpeed(a, cache)), a.cmd.route[a.idx].timeoutMs * 1000))
  }

  function OneStep(cmdId: uint32, step: SubCmd): Sequence {
    Sequence(cmdId, 1, [step, SubCmd(0, 0), SubCmd(0, 0), SubCmd(0, 0), SubCmd(0, 0)])
  }

  // ---- what the command means --------------------------------------------------------------------

  /** The whole number nearest to `r` among those not farther from zero, within the sixteen bits of a speed. */
  predicate Truncated(s: int, r: real) {
    && (0.0 <= r < 32768.0 ==> s as real <= r < s as real + 1.0)
    && (-32769.0 < r <= 0.0 ==> s as real - 1.0 < r <= s as real)
    && (r >= 32768.0 ==> s == 32767)
    && (r <= -32769.0 ==> s == -32768)
  }

  lemma ToInt16Truncates(r: real)
    ensures Truncated(ToInt16(r), r)
  {
    assert r >= 0.0 ==> r.Floor as real <= r < r.Floor as real + 1.0;
    assert r <= 0.0 ==> (-r).Floor as real <= -r < (-r).Floor as real + 1.0;
  }

  /** The speed wanted under a speed limit: three quarters of it, eleven tenths of it, or the gain times it. */
  function Scaled(mode: DriveMode, gain: real, limit: real): real {
    match mode
    case Eco => 3.0 * limit / 4.0
    case Performance => 11.0 * limit / 10.0
    case ManualTuning => gain * limit
  }

  /** Under the limit of region `e`, or 1000 rpm without one; half of it if tuning is on and `e` is steep. */
  function WantedSpeed(cmd: RouteCommand, e: Option<Region>): real {
    match e
    case None => Scaled(cmd.mode, cmd.gain, 1000.0)
    case Some(r) =>
      if cmd.tuning && (r.incline > 5.0 || r.incline < -5.0) then Scaled(cmd.mode, cmd.gain, r.maxSpeed) / 2.0
      else Scaled(cmd.mode, cmd.gain, r.maxSpeed)
  }

  /** `q` drives to node `node` through region `e`: one step at the wanted speed, for at most the node's timeout. */
  predicate DrivesTo(q: Sequence, cmd: RouteCommand, node: Node, e: Option<Region>) {
    && q.cmdId == 999 && q.numSteps == 1 && q.steps[0].duration == 1000 * node.timeoutMs
    && Truncated(q.steps[0].speed, WantedSpeed(cmd, e))
  }

  function CurrentRegion(a: AutoState, cache: seq<Region>): Option<Region>
    requires a.env.Some? ==> a.env.value < |cache|
  {
    if a.env.Some? then Some(cache[a.env.value]) else None
  }

  /** `q` is the command for the current node under the current environment. */
  predicate Towards(q: Sequence, a: AutoState, cache: seq<Region>) {
    && a.idx < MAX_NODES && (a.env.Some? ==> a.env.value < |cache|)
    && DrivesTo(q, a.cmd, a.cmd.route[a.idx], CurrentRegion(a, cache))
  }

  lemma NodeSequenceDrives(a: AutoState, cache: seq<Region>)
    requires a.idx < MAX_NODES && (a.env.Some? ==> a.env.value < |cache|)
    ensures Towards(NodeSequence(a, cache), a, cache)
  {
    TargetIsWanted(a, cache);
    ToInt16Truncates(TargetSpeed(a, cache));
    hide ToInt16, Truncated, TargetSpeed, WantedSpeed;
  }

  lemma TargetIsWanted(a: AutoState, cache: seq<Region>)
    requires a.env.Some? ==> a.env.value < |cache|
    ensures TargetSpeed(a, cache) == WantedSpeed(a.cmd, CurrentRegion(a, cache))
  {
    if a.cmd.mode == ManualTuning {
      Commutes(a.cmd.gain, if a.env.Some? then cache[a.env.value].maxSpeed else 1000.0);
    }
  }

  lemma Commutes(p: real, q: real)
    ensures p * q == q * p
  {
  }

  /** Energy per metre times the metres since the route began is the energy used, unless it hardly moved. */
  lemma NodeEfficiency(a: AutoState, x: real)
    requires RouteOk(a) && a.active
    ensures var s := ReachNode(a, x).status.stats[a.idx];
            var metres := if x > a.startPos then x - a.startPos else a.startPos - x;
            && s.initial == 0.0 && s.final == s.total == 1000.0 * a.energy
            && (if metres > 0.01 then s.perMeter * metres == s.total else s.perMeter == 0.0)
  {
    var metres := Abs(x - a.startPos);
    var s := ReachNode(a, x).status.stats[a.idx];
    if metres > 0.01 {
      assert s.perMeter == s.total / metres;
      QuotientTimes(s.total, metres);
    }
  }

  lemma QuotientTimes(e: real, d: real)
    requires d > 0.0
    ensures e / d * d == e
  {
  }

  const STOP := OneStep(0, SubCmd(0, 0))

  /** An environment has to be asked for. */
  predicate OffMap(a: AutoState, cache: seq<Region>, x: real)
    requires a.env.Some? ==> a.env.value < |cache|
  {
    a.env.None? || x < cache[a.env.value].minX || x > cache[a.env.value].maxX
  }
}
