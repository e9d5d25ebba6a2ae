/** MotorService as a state machine: accepting a sequence, and stepping through it tick by tick. */
module Motor {
  import opened Wrappers
  import opened Messages

  const RPM_LIMIT := 6000

  datatype MotorState = MotorState(active: bool, cmd: Sequence, idx: nat, remaining: uint32)

  const INITIAL :=
    MotorState(false, Sequence(0, 0, [SubCmd(0, 0), SubCmd(0, 0), SubCmd(0, 0), SubCmd(0, 0), SubCmd(0, 0)]), 0, 0)

  function Clamp(v: int): (r: int16)
    ensures -6000 <= r <= 6000
    ensures -6000 <= v <= 6000 ==> r == v
    ensures v < -6000 ==> r == -6000
    ensures v > 6000 ==> r == 6000
  {
    if v < -RPM_LIMIT then -RPM_LIMIT else if v > RPM_LIMIT then RPM_LIMIT else v
  }

  /** How many steps of a received sequence are taken. */
  function StepCount(cmd: Sequence): (n: nat)
    ensures n <= 5 && n <= cmd.numSteps && (n == 5 || n == cmd.numSteps)
  {
    if cmd.numSteps < MAX_SUB_CMDS then cmd.numSteps else MAX_SUB_CMDS
  }

  /** At most five steps, and the speeds of these clamped. */
  function Limited(cmd: Sequence): Sequence {
    var n := StepCount(cmd);
    cmd.(numSteps := n,
         steps := seq(MAX_SUB_CMDS, i requires 0 <= i < MAX_SUB_CMDS =>
           if i < n then cmd.steps[i].(speed := Clamp(cmd.steps[i].speed)) else cmd.steps[i]))
  }

  /** Field by field: what is kept of a received sequence. */
  lemma LimitedExactly(cmd: Sequence)
    ensures var c := Limited(cmd);
            && c.cmdId == cmd.cmdId
            && c.numSteps == (if cmd.numSteps < 5 then cmd.numSteps else 5)
            && (forall i | 0 <= i < 5 :: c.steps[i].duration == cmd.steps[i].duration)
            && (forall i | 0 <= i < c.numSteps :: -6000 <= c.steps[i].speed <= 6000)
            && (forall i | 0 <= i < c.numSteps && -6000 <= cmd.steps[i].speed <= 6000 ::
                  c.steps[i].speed == cmd.steps[i].speed)
            && (forall i | 0 <= i < c.numSteps && cmd.steps[i].speed > 6000 :: c.steps[i].speed == 6000)
            && (forall i | 0 <= i < c.numSteps && cmd.steps[i].speed < -6000 :: c.steps[i].speed == -6000)
            && (forall i | c.numSteps <= i < 5 :: c.steps[i] == cmd.steps[i])
    ensures Starts(Limited(cmd)) <==> Starts(cmd)
  {
  }

  predicate Starts(cmd: Sequence) {
    cmd.numSteps > 0 && cmd.steps[0].duration > 0
  }

  function OnSequence(m: MotorState, cmd: Sequence): (MotorState, Status) {
    var c := Limited(cmd);
    if Starts(c) then (MotorState(true, c, 0, c.steps[0].duration), Status(c.cmdId, c.steps[0].speed, true))
    else (MotorState(false, c, 0, m.remaining), Status(c.cmdId, 0, false))
  }

  /** What every reachable state satisfies. */
  predicate Valid(m: MotorState) {
    && m.cmd.numSteps <= MAX_SUB_CMDS
    && (m.active ==> m.idx < m.cmd.numSteps)
    && (forall i | 0 <= i < m.cmd.numSteps :: -RPM_LIMIT <= m.cmd.steps[i].speed <= RPM_LIMIT)
  }

  function OnTick(m: MotorState, t: Tick): (MotorState, Option<Status>)
    requires Valid(m)
  {
    if !m.active || t.cmdId != m.cmd.cmdId then (m, None)
    else if t.dt >= m.remaining then NextStep(m)
    else (m.(remaining := m.remaining - t.dt), None)
  }

  function NextStep(m: MotorState): (MotorState, Option<Status>)
    requires Valid(m) && m.active
  {
    var i := m.idx + 1;
    if i < m.cmd.numSteps then
      (m.(idx := i, remaining := m.cmd.steps[i].duration), Some(Status(m.cmd.cmdId, m.cmd.steps[i].speed, true)))
    else
      (m.(idx := i, active := false), Some(Status(m.cmd.cmdId, 0, false)))
  }

  /** The status the rest of the system should believe. */
  function Current(m: MotorState): Status
    requires Valid(m)
  {
    Status(m.cmd.cmdId, if m.active then m.cmd.steps[m.idx].speed else 0, m.active)
  }

  /** Every handler keeps the state valid, and every status it publishes is the truth at that moment. */
  lemma HandlersKeepValid(m: MotorState, cmd: Sequence, t: Tick)
    requires Valid(m)
    ensures var (m', s) := OnSequence(m, cmd); Valid(m') && s == Current(m')
    ensures var (m', s) := OnTick(m, t);
            && Valid(m') && m'.cmd == m.cmd
            && (if s.Some? then s.value == Current(m') else Current(m') == Current(m))
    ensures -RPM_LIMIT <= Current(m).rpm <= RPM_LIMIT
  {
  }

  // ---- the length of a sequence ------------------------------------------------------------------

  /** Ticks of `dt` that a step of duration `d` takes. */
  function TicksFor(d: nat, dt: nat): (n: nat)
    requires dt > 0
    ensures n >= 1
  {
    if d <= dt then 1 else 1 + TicksFor(d - dt, dt)
  }

  /** max(1, ceil(d / dt)) */
  lemma {:induction false} TicksForIsCeiling(d: nat, dt: nat)
    requires dt > 0
    ensures d <= TicksFor(d, dt) * dt
    ensures TicksFor(d, dt) > 1 ==> (TicksFor(d, dt) - 1) * dt < d
  {
    if d > dt {
      TicksForIsCeiling(d - dt, dt);
      var n := TicksFor(d - dt, dt);
      assert (n + 1) * dt == n * dt + dt;
      assert n > 1 ==> n * dt == (n - 1) * dt + dt;
    }
  }

  /** Ticks for the steps of a received sequence from `j` on. */
  function TicksFrom(cmd: Sequence, j: nat, dt: nat): nat
    requires dt > 0
    decreases StepCount(cmd) - j
  {
    if j >= StepCount(cmd) then 0 else TicksFor(cmd.steps[j].duration, dt) + TicksFrom(cmd, j + 1, dt)
  }

  function TicksLeft(m: MotorState, dt: nat): nat
    requires Valid(m) && dt > 0
  {
    if m.active then TicksFor(m.remaining, dt) + TicksFrom(m.cmd, m.idx + 1, dt) else 0
  }

  /** The statuses of a received sequence from step `j` on: one per step, then the inactive one. */
  function StatusesFrom(cmd: Sequence, j: nat): seq<Status>
    decreases StepCount(cmd) - j
  {
    if j >= StepCount(cmd) then [Status(cmd.cmdId, 0, false)]
    else [Status(cmd.cmdId, Clamp(cmd.steps[j].speed), true)] + StatusesFrom(cmd, j + 1)
  }

  lemma {:induction false} LimitedRuns(cmd: Sequence, j: nat, dt: nat)
    requires dt > 0
    ensures TicksFrom(Limited(cmd), j, dt) == TicksFrom(cmd, j, dt)
    ensures StatusesFrom(Limited(cmd), j) == StatusesFrom(cmd, j)
    decreases StepCount(cmd) - j
  {
    LimitedExactly(cmd);
    if j < StepCount(cmd) {
      LimitedRuns(cmd, j + 1, dt);
      hide Limited, TicksFor;
    }
  }

  function Emitted(s: Option<Status>): seq<Status> {
    if s.Some? then [s.value] else []
  }

  lemma TickProgress(m: MotorState, t: Tick)
    requires Valid(m) && m.active && t.cmdId == m.cmd.cmdId && t.dt > 0
    ensures var (m', s) := OnTick(m, t);
            && Valid(m')
            && TicksLeft(m, t.dt) == 1 + TicksLeft(m', t.dt)
            && (m'.active <==> TicksLeft(m, t.dt) > 1)
            && StatusesFrom(m.cmd, m.idx + 1) == Emitted(s) + if m'.active then StatusesFrom(m.cmd, m'.idx + 1) else []
  {
    var (m', s) := OnTick(m, t);
    if t.dt >= m.remaining {
      assert TicksFor(m.remaining, t.dt) == 1;
    }
  }

  /** `n` equal matching ticks, and the statuses they publish. */
  function RunTicks(m: MotorState, n: nat, t: Tick): (MotorState, seq<Status>)
    requires Valid(m)
    decreases n
  {
    if n == 0 then (m, [])
    else
      HandlersKeepValid(m, m.cmd, t);
      var (m', s) := OnTick(m, t);
      var (final, rest) := RunTicks(m', n - 1, t);
      (final, Emitted(s) + rest)
  }

  lemma {:induction false} RunToEnd(m: MotorState, n: nat, t: Tick)
    requires Valid(m) && m.active && t.cmdId == m.cmd.cmdId && t.dt > 0 && n <= TicksLeft(m, t.dt)
    ensures RunTicks(m, n, t).0.active <==> n < TicksLeft(m, t.dt)
    ensures n == TicksLeft(m, t.dt) ==> RunTicks(m, n, t).1 == StatusesFrom(m.cmd, m.idx + 1)
    decreases n
  {
    if n > 0 {
      TickProgress(m, t);
      var (m', s) := OnTick(m, t);
      if m'.active {
        RunToEnd(m', n - 1, t);
      }
    }
  }

  /**
    A received sequence whose first step lasts stays active for exactly the sum, over its first five steps, of
    max(1, ceil(d / dt)) ticks, and publishes one active status per step, in order, with clamped speeds, then one
    inactive status, and nothing else. Any other one stops the motor at once, with one inactive status.
   */
  lemma SequenceRunsToCompletion(m: MotorState, cmd: Sequence, dt: uint32)
    requires Valid(m) && dt > 0
    ensures var (m0, s0) := OnSequence(m, cmd);
            var t := Tick(cmd.cmdId, 0, dt);
            var total := TicksFrom(cmd, 0, dt);
            if cmd.numSteps > 0 && cmd.steps[0].duration > 0 then
              && (forall n: nat | n <= total :: RunTicks(m0, n, t).0.active <==> n < total)
              && [s0] + RunTicks(m0, total, t).1 == StatusesFrom(cmd, 0)
            else !m0.active && s0 == Status(cmd.cmdId, 0, false)
  {
    LimitedExactly(cmd);
    if cmd.numSteps > 0 && cmd.steps[0].duration > 0 {
      var (m0, s0) := OnSequence(m, cmd);
      var t := Tick(cmd.cmdId, 0, dt);
      HandlersKeepValid(m, cmd, t);
      StartedRun(m, cmd, dt);
      hide Limited, OnSequence, TicksLeft, TicksFrom, StatusesFrom, RunTicks;
      forall n: nat | n <= TicksLeft(m0, dt) ensures RunTicks(m0, n, t).0.active <==> n < TicksLeft(m0, dt) {
        RunToEnd(m0, n, t);
      }
      RunToEnd(m0, TicksLeft(m0, dt), t);
    }
  }

  lemma StartedRun(m: MotorState, cmd: Sequence, dt: nat)
    requires Valid(m) && dt > 0 && Starts(cmd)
    ensures var (m0, s0) := OnSequence(m, cmd);
            && Valid(m0) && m0.active && m0.cmd.cmdId == cmd.cmdId && TicksLeft(m0, dt) == TicksFrom(cmd, 0, dt)
            && [s0] + StatusesFrom(m0.cmd, m0.idx + 1) == StatusesFrom(cmd, 0)
  {
    LimitedExactly(cmd);
    LimitedRuns(cmd, 0, dt);
    HandlersKeepValid(m, cmd, Tick(0, 0, 0));
    hide Limited, TicksFor;
  }
}
