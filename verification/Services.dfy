/**
  The services as the objects they are: fields updated in place, handlers that publish in the middle of their
  work and are entered again while they wait, and a cache of shared regions that the controller points into.
  Every publish is proved to change the objects as Mesh.Publish changes the world they stand for.
 */
module Services {
  import opened Wrappers
  import opened Messages
  import opened Motor
  import opened Physics
  import opened Environment
  import opened Route
  import opened Mesh

  /** The target of a shared pointer. */
  class Cell {
    var region: Region

    constructor (region: Region)
      ensures this.region == region
    {
      this.region := region;
    }
  }

  function Regions(cells: seq<Cell>): (r: seq<Region>)
    reads set c | c in cells
    ensures |r| == |cells| && forall i | 0 <= i < |cells| :: r[i] == cells[i].region
  {
    if cells == [] then [] else Regions(cells[..|cells| - 1]) + [cells[|cells| - 1].region]
  }

  predicate DistinctCells(cells: seq<Cell>) {
    forall i, j | 0 <= i < j < |cells| :: cells[i] != cells[j]
  }

  /** Where a cell is. */
  function IndexOf(cells: seq<Cell>, c: Cell): (i: nat)
    requires c in cells
    ensures i < |cells| && cells[i] == c
  {
    if cells[0] == c then 0 else 1 + IndexOf(cells[1..], c)
  }

  lemma {:induction false} IndexOfDistinct(cells: seq<Cell>, k: nat)
    requires DistinctCells(cells) && k < |cells|
    ensures IndexOf(cells, cells[k]) == k
  {
    var i := IndexOf(cells, cells[k]);
    assert !(i < k) && !(k < i);
  }

  /** A payload on the bus: a value, or a pointer. */
  datatype Payload = Plain(m: Msg) | Pointer(cell: Cell)

  lemma SequenceOk(w: World, c: Sequence)
    requires Ok(w)
    ensures Ok(w.(motor := Motor.OnSequence(w.motor, c).0))
  {
    HandlersKeepValid(w.motor, c, Tick(0, 0, 0));
  }

  lemma StepOk(w: World)
    requires Ok(w) && w.motor.active
    ensures Motor.Valid(w.motor) && Ok(w.(motor := NextStep(w.motor).0)) && NextStep(w.motor).1.Some?
  {
  }

  /** The motor's next step, and its status on the bus. */
  ghost function Stepped(bus: Bus, w: World): World
    requires Ok(w) && w.motor.active
  {
    StepOk(w);
    Mesh.Publish(bus, MsgStatus(NextStep(w.motor).1.value), w.(motor := NextStep(w.motor).0))
  }

  lemma RegionOk(w: World, e: Region)
    requires Ok(w)
    ensures Ok(w.(env := w.env.(cache := Store(w.env.cache, e))))
  {
  }

  lemma StampOk(w: World, at: int)
    requires Ok(w)
    ensures Ok(w.(env := w.env.(lastRequest := at)))
  {
  }

  lemma AutoOk(w: World, a: AutoState)
    requires Ok(w) && RouteOk(a) && (a.env.Some? ==> a.env.value < |w.env.cache|)
    ensures Ok(w.(auto := a))
  {
  }

  /** AutonomousService's handlers, one by one; anything else, power data apart, leaves the world alone. */
  lemma AutonomousHandles(bus: Bus, m: Msg, w: World)
    requires Ok(w) && MsgOk(m, w)
    ensures var w' := Handle(bus, AutonomousC, m, w);
            && (m.MsgRoute? ==> w' == AutoOnRoute(bus, m.route, w))
            && (m.MsgKinematics? ==> w' == AutoOnKinematics(bus, m.kin, w))
            && (m.MsgTick? ==> w' == AutoOnTick(bus, w))
            && (m.MsgFound? ==> w' == AutoOnFound(bus, m.entry, w))
            && (!m.MsgRoute? && !m.MsgKinematics? && !m.MsgTick? && !m.MsgFound? && !m.MsgPower? ==> w' == w)
  {
    hide Ok, Frame, AutoOnRoute, AutoOnKinematics, AutoOnTick, AutoOnFound;
  }

  lemma FoundHandles(bus: Bus, at: nat, w: World)
    requires Ok(w) && MsgOk(MsgFound(at), w)
    ensures at < |w.env.cache| && Handle(bus, AutonomousC, MsgFound(at), w) == AutoOnFound(bus, at, w)
  {
    AutonomousHandles(bus, MsgFound(at), w);
    hide Ok, Handle, AutoOnFound;
  }

  lemma QuietHandled(bus: Bus, c: Component, m: Msg, w: World)
    requires Ok(w) && MsgOk(m, w) && !Publishing(c, m)
    ensures Handle(bus, c, m, w) == Quiet(c, m, w)
  {
    hide Ok, Frame, Quiet;
  }

  lemma DeliverSnoc(bus: Bus, hs: seq<Component>, k: nat, m: Msg, w: World)
    requires k < |hs| && Ok(w) && MsgOk(m, w)
    ensures Deliver(bus, hs[..k + 1], m, w) == Handle(bus, hs[k], m, Deliver(bus, hs[..k], m, w))
  {
    hide Ok, Frame, Handle;
    assert hs[..k + 1][..k] == hs[..k];
  }

  lemma DeliverNobody(bus: Bus, m: Msg, w: World)
    requires Ok(w) && MsgOk(m, w)
    ensures Deliver(bus, [], m, w) == w
  {
    hide Ok, Frame, Handle;
  }

  lemma PublishDelivers(bus: Bus, m: Msg, w: World)
    requires Ok(w) && MsgOk(m, w)
    ensures Mesh.Publish(bus, m, w) == Deliver(bus, HandlersOf(bus, m.Id()), m, w.(sent := w.sent + [Sent(m, w.now)]))
  {
    hide Ok, Frame, Deliver;
  }

  lemma AskKeepsActive(bus: Bus, x: real, w: World)
    requires Ok(w)
    ensures AskEnvironment(bus, x, w).auto.active == w.auto.active
  {
    hide Ok, AskEnvironment;
  }

  lemma SentOk(w: World, m: Msg)
    requires Ok(w)
    ensures Ok(w.(sent := w.sent + [Sent(m, w.now)]))
  {
  }

  lemma ActiveIndex(w: World)
    requires Ok(w)
    ensures w.auto.active <==> w.auto.idx < w.auto.cmd.numNodes
    ensures w.auto.active ==> w.auto.idx < MAX_NODES
  {
  }

  lemma RouteStartOk(w: World, c: RoutePlan)
    requires Ok(w)
    ensures Ok(w.(auto := Start(w.auto, c)))
  {
  }

  class MotorService {
    var active: bool
    var cmd: Sequence
    var idx: nat
    var remaining: uint32

    constructor ()
      ensures !active && cmd == Motor.INITIAL.cmd && idx == 0 && remaining == 0
    {
      active, cmd, idx, remaining := false, Motor.INITIAL.cmd, 0, 0;
    }

    function State(): MotorState
      reads this
    {
      MotorState(active, cmd, idx, remaining)
    }

    /** current_cmd_ with at most five steps, their speeds clamped in place. */
    method Accept(c: Sequence)
      modifies this`cmd
      ensures cmd == Limited(c) && cmd.cmdId == c.cmdId && cmd.numSteps == (if c.numSteps < 5 then c.numSteps else 5)
      ensures forall i | 0 <= i < 5 :: cmd.steps[i].duration == c.steps[i].duration
      ensures forall i | cmd.numSteps <= i < 5 :: cmd.steps[i] == c.steps[i]
      ensures forall i | 0 <= i < cmd.numSteps && -6000 <= c.steps[i].speed <= 6000 ::
                cmd.steps[i].speed == c.steps[i].speed
      ensures forall i | 0 <= i < cmd.numSteps && c.steps[i].speed > 6000 :: cmd.steps[i].speed == 6000
      ensures forall i | 0 <= i < cmd.numSteps && c.steps[i].speed < -6000 :: cmd.steps[i].speed == -6000
    {
      LimitedExactly(c);
      cmd := c;
      if MAX_SUB_CMDS < cmd.numSteps {
        cmd := cmd.(numSteps := MAX_SUB_CMDS);
      }
      var i := 0;
      while i < cmd.numSteps
        invariant 0 <= i <= cmd.numSteps == Limited(c).numSteps && cmd.cmdId == c.cmdId
        invariant forall j | 0 <= j < i :: cmd.steps[j] == c.steps[j].(speed := Clamp(c.steps[j].speed))
        invariant forall j | i <= j < MAX_SUB_CMDS :: cmd.steps[j] == c.steps[j]
      {
        cmd := cmd.(steps := cmd.steps[i := cmd.steps[i].(speed := Clamp(cmd.steps[i].speed))]);
        i := i + 1;
      }
      assert cmd.steps == Limited(c).steps;
    }

    /** The new state, and the status to publish. */
    method Load(c: Sequence) returns (status: Status)
      modifies this
      ensures (State(), status) == Motor.OnSequence(old(State()), c)
    {
      Accept(c);
      idx := 0;
      if cmd.numSteps > 0 && cmd.steps[0].duration > 0 {
        active := true;
        remaining := cmd.steps[0].duration;
        status := Status(cmd.cmdId, cmd.steps[0].speed, true);
      } else {
        active := false;
        status := Status(cmd.cmdId, 0, false);
      }
    }

    method OnSequence(c: Sequence, app: App)
      requires app.Valid() && app.motor == this
      modifies app.Objects()
      ensures app.Is(MotorOnSequence(app.Wiring(), c, old(app.Value())))
      ensures app.env.cache == old(app.env.cache)
      decreases Rank(MotorSequence), 0, 0
    {
      ghost var w := app.Value();
      SequenceOk(w, c);
      hide Ok, Motor.OnSequence, Mesh.Publish, Frame;
      var status := Load(c);
      assert app.Value() == w.(motor := Motor.OnSequence(w.motor, c).0);
      app.Publish(Plain(MsgStatus(status)));
    }

    method OnTick(t: Tick, app: App)
      requires app.Valid() && app.motor == this
      modifies app.Objects()
      ensures app.Is(MotorOnTick(app.Wiring(), t, old(app.Value())))
      ensures app.env.cache == old(app.env.cache)
      decreases Rank(PhysicsTick), 0, 0
    {
      hide Mesh.Publish, Frame, Regions, RouteOk;
      if !active || t.cmdId != cmd.cmdId { return; }
      ghost var w := app.Value();
      HandlersKeepValid(w.motor, w.motor.cmd, t);
      if t.dt >= remaining {
        AdvanceStep(app);
      } else {
        remaining := remaining - t.dt;
        assert app.Value() == w.(motor := Motor.OnTick(w.motor, t).0);
      }
    }

    /** The next step, or the end. */
    method Advance() returns (status: Status)
      requires Motor.Valid(State()) && active
      modifies this
      ensures (State(), Some(status)) == NextStep(old(State()))
    {
      idx := idx + 1;
      if idx < cmd.numSteps {
        remaining := cmd.steps[idx].duration;
        status := Status(cmd.cmdId, cmd.steps[idx].speed, true);
      } else {
        active := false;
        status := Status(cmd.cmdId, 0, false);
      }
    }

    method AdvanceStep(app: App)
      requires app.Valid() && app.motor == this && active
      modifies app.Objects()
      ensures app.Is(Stepped(app.Wiring(), old(app.Value())))
      ensures app.env.cache == old(app.env.cache)
      decreases Rank(MotorStatus), 4, 0
    {
      ghost var w := app.Value();
      StepOk(w);
      hide Ok, Mesh.Publish, Frame, NextStep, Regions;
      var status := Advance();
      assert app.Value() == w.(motor := NextStep(w.motor).0);
      app.Publish(Plain(MsgStatus(status)));
    }
  }

  class StateService {
    var executing: bool
    var lastCmdId: uint32
    var lastRpm: int16
    var lastActive: bool

    constructor ()
      ensures !executing && lastCmdId == 0 && lastRpm == 0 && !lastActive
    {
      executing, lastCmdId, lastRpm, lastActive := false, 0, 0, false;
    }

    function Cached(): StateCache
      reads this
    {
      StateCache(executing, lastCmdId, lastRpm, lastActive)
    }

    method OnStatus(s: Status)
      modifies this
      ensures Cached() == CacheStatus(s)
    {
      lastCmdId := s.cmdId;
      lastRpm := s.rpm;
      lastActive := s.active;
      if s.active != executing {
        executing := s.active;
      }
    }

    /** What the clock reads before it publishes a tick. */
    method ReadTick() returns (t: Tick)
      ensures t == Snapshot(Cached())
    {
      var rpm := lastRpm;
      if !executing {
        rpm := 0;
      }
      t := Tick(lastCmdId, rpm, TICK_US);
    }
  }

  class KinematicsService {
    var cmdId: uint32
    var elapsed: uint32
    var position: int
    var speed: int

    constructor ()
      ensures cmdId == 0 && elapsed == 0 && position == 0 && speed == 0
    {
      cmdId, elapsed, position, speed := 0, 0, 0, 0;
    }

    function Kinematic(): KinState
      reads this
    {
      KinState(cmdId, elapsed, position, speed)
    }

    method OnTick(t: Tick)
      modifies this
      ensures Kinematic() == Integrate(old(Kinematic()), t)
    {
      speed := t.rpm;
      position := position + speed * t.dt;
      elapsed := (elapsed + t.dt) % 0x1_0000_0000;
      cmdId := t.cmdId;
    }

    method OnStatus(s: Status)
      modifies this
      ensures Kinematic() == KinOnStatus(old(Kinematic()), s)
    {
      if s.active && s.cmdId != cmdId {
        cmdId := s.cmdId;
        elapsed := 0;
      } else if !s.active {
        speed := 0;
      }
    }
  }

  class PowerService {
    var cmdId: uint32
    var voltage: real
    var current: real

    constructor ()
      ensures cmdId == 0 && voltage == 12.6 && current == 0.0
    {
      cmdId, voltage, current := 0, 12.6, 0.0;
    }

    function Electric(): PowerState
      reads this
    {
      PowerState(cmdId, voltage, current)
    }

    method OnTick(t: Tick, supply: (real, real))
      modifies this
      ensures Electric() == PowerState(t.cmdId, supply.0, supply.1)
    {
      voltage, current, cmdId := supply.0, supply.1, t.cmdId;
    }

    method OnStatus(s: Status)
      modifies this
      ensures Electric() == PowerOnStatus(old(Electric()), s)
    {
      cmdId := s.cmdId;
      if !s.active {
        current := 0.0;
      }
    }
  }

  class ThermalService {
    var ambient: real
    var motor: real
    var battery: real

    constructor ()
      ensures ambient == 20.0 && motor == 20.0 && battery == 20.0
    {
      ambient, motor, battery := 20.0, 20.0, 20.0;
    }

    function Thermal(): ThermalState
      reads this
    {
      ThermalState(ambient, motor, battery)
    }

    method OnTick(t: Tick)
      modifies this
      ensures Thermal() == Heat(old(Thermal()), t)
    {
      var dt := Seconds(t.dt);
      var heat, cooling := Physics.Abs(t.rpm) as real * 0.005, (motor - ambient) * 0.05;
      motor := motor + (heat - cooling) * dt;
      heat, cooling := Physics.Abs(t.rpm) as real * 0.002, (battery - ambient) * 0.02;
      battery := battery + (heat - cooling) * dt;
    }

    method OnRegion(e: Region)
      modifies this
      ensures Thermal() == old(Thermal()).(ambient := e.ambient)
    {
      ambient := e.ambient;
    }
  }

  class EnvironmentService {
    var cache: seq<Cell>
    var lastRequest: int

    constructor ()
      ensures cache == [] && lastRequest == 0
    {
      cache, lastRequest := [], 0;
    }

    /** std::find_if by region id. */
    method FindCell(id: uint32) returns (at: Option<nat>)
      ensures at == Find(Regions(cache), id)
    {
      ghost var regions := Regions(cache);
      var k := 0;
      while k < |cache|
        invariant 0 <= k <= |cache|
        invariant forall j | 0 <= j < k :: regions[j].id != id
      {
        if cache[k].region.id == id {
          return Some(k);
        }
        k := k + 1;
      }
      return None;
    }

    /** In place if the region is known, at the end of the cache otherwise. */
    method StoreRegion(e: Region)
      requires DistinctCells(cache)
      modifies this`cache, set c | c in cache
      ensures Regions(cache) == Store(old(Regions(cache)), e) && DistinctCells(cache)
      ensures old(cache) <= cache && forall c | c in cache :: c in old(cache) || fresh(c)
    {
      hide Regions, Find;
      var at := FindCell(e.id);
      ghost var regions := Regions(cache);
      if at.Some? {
        cache[at.value].region := e;
        assert Regions(cache) == regions[at.value := e];
      } else {
        var cell := new Cell(e);
        cache := cache + [cell];
        assert Regions(cache) == regions + [e];
      }
    }

    method StoreIn(e: Region, app: App)
      requires app.Valid() && app.env == this
      modifies app.Objects()
      ensures app.Is(var w := old(app.Value()); w.(env := w.env.(cache := Store(w.env.cache, e))))
      ensures old(cache) <= cache && forall c | c in cache :: c in old(cache) || fresh(c)
    {
      ghost var w := app.Value();
      RegionOk(w, e);
      ghost var cells := cache;
      hide Ok, Store, Regions, Find, DistinctCells;
      StoreRegion(e);
      app.auto.PointerStays(cells, cache);
      assert app.auto.Driving(cache) == w.auto;
      assert app.Value() == w.(env := w.env.(cache := Store(w.env.cache, e)));
    }

    method OnRegion(e: Region, app: App)
      requires app.Valid() && app.env == this
      modifies app.Objects()
      ensures app.Is(EnvOnRegion(app.Wiring(), e, old(app.Value())))
      ensures old(cache) <= cache && forall c | c in cache :: c in old(cache) || fresh(c)
      decreases Rank(EnvironmentData), 0, 0
    {
      hide Ok, Store, Regions, DistinctCells, Mesh.Publish, Frame;
      StoreIn(e, app);
      app.Publish(Plain(MsgRegionAck(e.id)));
    }

    /** The early return of the search. */
    method FindCover(x: real, y: real) returns (at: Option<nat>)
      ensures at == Lookup(Regions(cache), x, y)
    {
      ghost var regions := Regions(cache);
      var k := 0;
      while k < |cache|
        invariant 0 <= k <= |cache|
        invariant forall j | 0 <= j < k :: !Covers(regions[j], x, y)
      {
        if Covers(cache[k].region, x, y) {
          return Some(k);
        }
        k := k + 1;
      }
      return None;
    }

    method Stamp(at: int, app: App)
      requires app.Valid() && app.env == this
      modifies this`lastRequest
      ensures app.Is(var w := old(app.Value()); w.(env := w.env.(lastRequest := at)))
    {
      ghost var w := app.Value();
      StampOk(w, at);
      hide Ok, Regions;
      lastRequest := at;
      assert app.Value() == w.(env := w.env.(lastRequest := at));
    }

    /** The shared pointer to an entry. */
    method Announce(at: nat, app: App)
      requires app.Valid() && app.env == this && at < |cache|
      modifies app.Objects()
      ensures app.Is(Mesh.Publish(app.Wiring(), MsgFound(at), old(app.Value())))
      ensures cache == old(cache)
      decreases Rank(InternalEnvData), 9, 0
    {
      hide Ok, Mesh.Publish, Frame, Regions;
      IndexOfDistinct(cache, at);
      app.Publish(Pointer(cache[at]));
    }

    method OnLookup(x: real, y: real, app: App)
      requires app.Valid() && app.env == this
      modifies app.Objects()
      ensures app.Is(EnvOnLookup(app.Wiring(), x, y, old(app.Value())))
      ensures cache == old(cache)
      decreases Rank(InternalEnvRequest), 0, 0
    {
      hide Ok, Mesh.Publish, Frame, Regions, Lookup, Covers;
      var at := FindCover(x, y);
      if at.Some? {
        Announce(at.value, app);
        return;
      }
      var now := app.now;
      if now - lastRequest > THROTTLE {
        app.Publish(Plain(MsgRegionRequest(x, y)));
        Stamp(now, app);
      }
    }
  }

  class AutonomousService {
    var cmd: RoutePlan
    var idx: nat
    var active: bool
    var ptr: Cell?
    var status: RouteStatus
    var energy: real
    var startEnergy: real
    var startPos: real
    var lastPos: real
    var usedEnvs: seq<uint32>
    ghost var from: real
    ghost var seen: seq<real>

    constructor ()
      ensures cmd == ROUTELESS.cmd && idx == 0 && !active && ptr == null && status == FreshStatus(0)
      ensures energy == startEnergy == startPos == lastPos == from == 0.0 && usedEnvs == [] && seen == []
    {
      cmd := ROUTELESS.cmd;
      idx, active, ptr, status := 0, false, null, FreshStatus(0);
      energy, startEnergy, startPos, lastPos, usedEnvs := 0.0, 0.0, 0.0, 0.0, [];
      from, seen := 0.0, [];
    }

    ghost function Driving(cells: seq<Cell>): AutoState
      reads this
    {
      AutoState(cmd, idx, active, if ptr != null && ptr in cells then Some(IndexOf(cells, ptr)) else None, status,
                energy, startEnergy, startPos, lastPos, usedEnvs, from, seen)
    }

    /** A cell keeps its place when the cache grows. */
    lemma PointerStays(cells: seq<Cell>, cells': seq<Cell>)
      requires DistinctCells(cells') && cells <= cells' && (ptr != null ==> ptr in cells)
      ensures Driving(cells') == Driving(cells)
    {
      if ptr != null {
        var i := IndexOf(cells, ptr);
        assert cells'[i] == ptr;
        IndexOfDistinct(cells', i);
      }
    }

    /** Everything a new command resets. */
    method Reset(c: RoutePlan, ghost cells: seq<Cell>)
      modifies this
      ensures Driving(cells) == Start(old(Driving(cells)), c) && ptr == null
    {
      cmd := c;
      idx := 0;
      active := c.numNodes > 0;
      status := FreshStatus(1234);
      usedEnvs := [];
      ptr := null;
      energy := 0.0;
      startEnergy := 0.0;
      startPos := lastPos;
      from, seen := lastPos, [];
    }

    method OnRoute(c: RoutePlan, app: App)
      requires app.Valid() && app.auto == this
      modifies app.Objects()
      ensures app.Is(AutoOnRoute(app.Wiring(), c, old(app.Value())))
      ensures app.env.cache == old(app.env.cache)
      decreases Rank(AutoDriveCommand), 0, 0
    {
      ghost var w := app.Value();
      RouteStartOk(w, c);
      ActiveIndex(w.(auto := Start(w.auto, c)));
      hide Ok, Mesh.Publish, Frame, Start, NodeSequence, Regions;
      Reset(c, app.env.cache);
      assert app.Value() == w.(auto := Start(w.auto, c));
      if active {
        PublishMotorSequence(app);
      }
    }

    /** The new pointer, and the telemetry of the regions used. */
    method PointAt(cell: Cell, ghost cells: seq<Cell>)
      requires RouteOk(Driving(cells)) && cell in cells
      modifies this
      ensures Driving(cells) == Enter(old(Driving(cells)), IndexOf(cells, cell), cell.region.id) && ptr == cell
    {
      hide ProgressOk, StatsOk, ApproachOk;
      ptr := cell;
      var id := cell.region.id;
      if id !in usedEnvs {
        if |usedEnvs| < MAX_ENVS {
          usedEnvs := usedEnvs + [id];
          status := status.(envIds := status.envIds[status.numEnvs := id], numEnvs := status.numEnvs + 1);
        }
      }
    }

    method EnterCell(cell: Cell, app: App)
      requires app.Valid() && app.auto == this && cell in app.env.cache
      modifies this
      ensures app.Is(var w := old(app.Value()); w.(auto := Enter(w.auto, IndexOf(app.env.cache, cell), cell.region.id)))
    {
      ghost var w, cells := app.Value(), app.env.cache;
      ghost var a := Enter(w.auto, IndexOf(cells, cell), cell.region.id);
      AutoOk(w, a);
      hide RouteOk, Motor.Valid, Regions;
      PointAt(cell, cells);
      assert app.Value() == w.(auto := a);
    }

    method OnFound(cell: Cell, app: App)
      requires app.Valid() && app.auto == this && cell in app.env.cache
      modifies app.Objects()
      ensures app.Is(AutoOnFound(app.Wiring(), IndexOf(old(app.env.cache), cell), old(app.Value())))
      ensures app.env.cache == old(app.env.cache)
      decreases Rank(InternalEnvData), 0, 0
    {
      hide Mesh.Publish, Frame, Enter, NodeSequence, IndexOf, Ok;
      EnterCell(cell, app);
      ActiveIndex(app.Value());
      if active {
        PublishMotorSequence(app);
      }
    }

    method OnPower(p: Power)
      modifies this`energy
      ensures energy == old(energy) + p.voltage * p.current * 0.01
    {
      var watt := p.voltage * p.current;
      energy := energy + watt * 0.01;
    }

    method OnTick(app: App)
      requires app.Valid() && app.auto == this
      modifies app.Objects()
      ensures app.Is(AutoOnTick(app.Wiring(), old(app.Value())))
      ensures app.env.cache == old(app.env.cache)
      decreases Rank(PhysicsTick), 0, 0
    {
      hide Ok, Mesh.Publish, Frame, Regions;
      ghost var w := app.Value();
      if active {
        app.Publish(Plain(MsgKinematicsRequest));
        assert app.Value() == Mesh.Publish(app.Wiring(), MsgKinematicsRequest, w);
        app.Publish(Plain(MsgPowerRequest));
      }
    }

    /** last_pos_m_, outside a route or behind a node. */
    method RecordPosition(x: real, app: App)
      requires app.Valid() && app.auto == this
      modifies this
      ensures app.Is(var w := old(app.Value()); w.(auto := At(w.auto, x)))
    {
      ghost var w := app.Value();
      AutoOk(w, At(w.auto, x));
      hide Ok, Regions;
      lastPos := x;
      from, seen := x, [];
      assert app.Value() == w.(auto := At(w.auto, x));
    }

    method OnKinematics(k: Kinematics, app: App)
      requires app.Valid() && app.auto == this
      modifies app.Objects()
      ensures app.Is(AutoOnKinematics(app.Wiring(), k, old(app.Value())))
      ensures app.env.cache == old(app.env.cache)
      decreases Rank(KinematicsData), 0, 6
    {
      hide Ok, Frame, Regions, AskEnvironment, Sample;
      var x := Metres(k.position);
      if !active || idx >= cmd.numNodes {
        RecordPosition(x, app);
        return;
      }
      AskKeepsActive(app.Wiring(), x, app.Value());
      CheckEnvironment(x, app);
      CheckNode(x, app);
    }

    /** The request for an environment that covers the position. */
    method CheckEnvironment(x: real, app: App)
      requires app.Valid() && app.auto == this
      modifies app.Objects()
      ensures app.Is(AskEnvironment(app.Wiring(), x, old(app.Value())))
      ensures app.env.cache == old(app.env.cache)
      decreases Rank(KinematicsData), 0, 0
    {
      hide Ok, Mesh.Publish, Frame;
      if cmd.tuning {
        if ptr == null || x < ptr.region.minX || x > ptr.region.maxX {
          app.Publish(Plain(MsgLookup(x, 0.0)));
        }
      }
    }

    /** The part of the handler behind the environment request. */
    method CheckNode(x: real, app: App)
      requires app.Valid() && app.auto == this && active
      modifies app.Objects()
      ensures app.Is(Sample(app.Wiring(), x, old(app.Value())))
      ensures app.env.cache == old(app.env.cache)
      decreases Rank(KinematicsData), 0, 5
    {
      ActiveIndex(app.Value());
      var target := cmd.route[idx].x;
      var reached := false;
      var before, now := target - lastPos, target - x;
      if Route.Abs(now) < 0.1 {
        reached := true;
      } else if before * now <= 0.0 {
        reached := true;
      }
      assert reached == Reached(target, lastPos, x);
      hide Ok, Frame, Regions, NodeReached, ReachNode, Moved, At, Reached;
      if reached {
        ReachCurrent(x, app);
        Continue(app);
        RecordPosition(x, app);
      } else {
        Advance(x, app);
      }
    }

    method Advance(x: real, app: App)
      requires app.Valid() && app.auto == this && active && idx < MAX_NODES && !Reached(cmd.route[idx].x, lastPos, x)
      modifies this
      ensures app.Is(var w := old(app.Value()); w.(auto := Moved(w.auto, x)))
    {
      ghost var w := app.Value();
      AutoOk(w, Moved(w.auto, x));
      hide Ok, Regions, Reached;
      lastPos := x;
      seen := seen + [x];
      assert app.Value() == w.(auto := Moved(w.auto, x));
    }

    method ReachCurrent(x: real, app: App)
      requires app.Valid() && app.auto == this && active
      modifies this
      ensures app.Is(var w := old(app.Value()); w.(auto := ReachNode(w.auto, x)))
    {
      ghost var w := app.Value();
      AutoOk(w, ReachNode(w.auto, x));
      hide RouteOk, Motor.Valid, Regions, ReachNode;
      RecordNode(x, app.env.cache);
      assert app.Value() == w.(auto := ReachNode(w.auto, x));
    }

    /** Statistics, indices and completion. */
    method RecordNode(x: real, ghost cells: seq<Cell>)
      requires RouteOk(Driving(cells)) && active
      modifies this
      ensures Driving(cells) == ReachNode(old(Driving(cells)), x) && ptr == old(ptr)
    {
      hide EnvsOk, ApproachOk;
      if status.numStats < 8 {
        var initial, final := startEnergy * 1000.0, energy * 1000.0;
        var moved := Route.Abs(x - startPos);
        var s := NodeStats(initial, final, if moved > 0.01 then (final - initial) / moved else 0.0, final - initial);
        status := status.(stats := status.stats[status.numStats := s], numStats := status.numStats + 1);
      }
      idx := idx + 1;
      status := status.(node := idx);
      if idx >= cmd.numNodes {
        active := false;
        status := status.(complete := true);
      }
      from, seen := lastPos, [];
    }

    /** The report and the stop, or the way to the next node. */
    method Continue(app: App)
      requires app.Valid() && app.auto == this
      modifies app.Objects()
      ensures app.Is(NodeReached(app.Wiring(), old(app.Value())))
      ensures app.env.cache == old(app.env.cache)
      decreases Rank(KinematicsData), 0, 4
    {
      ActiveIndex(app.Value());
      hide Ok, Mesh.Publish, Frame, Regions, NodeSequence;
      if idx >= cmd.numNodes {
        ReportAndStop(app);
      } else {
        PublishMotorSequence(app);
      }
    }

    method ReportAndStop(app: App)
      requires app.Valid() && app.auto == this
      modifies app.Objects()
      ensures app.Is(var w := old(app.Value());
                     Mesh.Publish(app.Wiring(), MsgSequence(STOP),
                       Mesh.Publish(app.Wiring(), MsgRouteStatus(w.auto.status), w)))
      ensures app.env.cache == old(app.env.cache)
      decreases Rank(MotorSequence), 4, 1
    {
      hide Ok, Mesh.Publish, Frame, Regions;
      app.Publish(Plain(MsgRouteStatus(status)));
      app.Publish(Plain(MsgSequence(STOP)));
    }

    /** publish_motor_sequence_for_current_node */
    method PublishMotorSequence(app: App)
      requires app.Valid() && app.auto == this && idx < MAX_NODES
      modifies app.Objects()
      ensures app.Is(var w := old(app.Value());
              Mesh.Publish(app.Wiring(), MsgSequence(NodeSequence(w.auto, w.env.cache)), w))
      ensures app.env.cache == old(app.env.cache)
      decreases Rank(MotorSequence), 4, 0
    {
      hide Ok, Mesh.Publish, Frame, Regions, NodeSequence, OneStep;
      var s := CommandForNode(app.env.cache);
      app.Publish(Plain(MsgSequence(s)));
    }

    method CommandForNode(ghost cells: seq<Cell>) returns (s: Sequence)
      requires idx < MAX_NODES && (ptr != null ==> ptr in cells)
      ensures s == NodeSequence(Driving(cells), Regions(cells))
      ensures DrivesTo(s, cmd, cmd.route[idx], if ptr == null then None else Some(ptr.region))
    {
      var target := TargetSpeed(cells);
      ToInt16Truncates(target);
      hide Regions, ToInt16, Truncated, Route.TargetSpeed, WantedSpeed;
      s := OneStep(999, SubCmd(ToInt16(target), cmd.route[idx].timeoutMs * 1000));
    }

    method TargetSpeed(ghost cells: seq<Cell>) returns (target: real)
      requires idx < MAX_NODES && (ptr != null ==> ptr in cells)
      ensures target == Route.TargetSpeed(Driving(cells), Regions(cells))
      ensures target == WantedSpeed(cmd, if ptr == null then None else Some(ptr.region))
    {
      hide Regions, ToInt16;
      target := 1000.0;
      if ptr != null {
        target := ptr.region.maxSpeed;
      }
      match cmd.mode {
        case Eco => target := target * 0.75;
        case Performance => target := target * 1.10;
        case ManualTuning => target := target * cmd.gain;
      }
      if cmd.tuning && ptr != null {
        if Route.Abs(ptr.region.incline) > 5.0 {
          target := target / 2.0;
        }
      }
    }
  }

  class MessageBus {
    var handlers: map<MsgId, seq<Component>>

    constructor ()
      ensures handlers == map[]
    {
      handlers := map[];
    }

    method Subscribe(id: MsgId, c: Component)
      modifies this
      ensures handlers == old(handlers)[id := HandlersOf(Bus(old(handlers)), id) + [c]]
    {
      handlers := handlers[id := (if id in handlers then handlers[id] else []) + [c]];
    }

    /** bind_all: every message of the list, in its order. */
    method BindSubscriptions(c: Component, ghost subs: set<(MsgId, Component)>)
      requires Bound(handlers, subs) && forall id :: (id, c) !in subs
      modifies this
      ensures Bound(handlers, subs + Pairs(c, |Subscribes(c)|))
    {
      var ids := Subscribes(c);
      var j := 0;
      while j < |ids|
        invariant 0 <= j <= |ids|
        invariant Bound(handlers, subs + Pairs(c, j))
      {
        PairsGrow(c, j, subs);
        BindOne(ids[j], c, subs + Pairs(c, j));
        j := j + 1;
      }
    }

    method BindOne(id: MsgId, c: Component, ghost subs: set<(MsgId, Component)>)
      requires Bound(handlers, subs) && (id, c) !in subs
      modifies this
      ensures Bound(handlers, subs + {(id, c)})
    {
      SubscribeBinds(handlers, id, c, subs);
      hide Bound;
      Subscribe(id, c);
    }

    /** The services bind as they are constructed, in whatever order that happens. */
    method BindAll(order: seq<Component>)
      requires handlers == map[] && forall c: Component :: multiset(order)[c] == 1
      modifies this
      ensures Wired(Bus(handlers))
    {
      ghost var subs: set<(MsgId, Component)> := {};
      var k := 0;
      while k < |order|
        invariant 0 <= k <= |order|
        invariant Bound(handlers, subs)
        invariant forall id, c :: (id, c) in subs <==> c in order[..k] && id in Subscribes(c)
      {
        NotYet(order, k);
        BindSubscriptions(order[k], subs);
        PairsOfAll(order, k, subs);
        subs := subs + Pairs(order[k], |Subscribes(order[k])|);
        k := k + 1;
      }
      AllBound(order, handlers, subs);
    }
  }

  /** Exactly the pairs in `subs` are subscriptions, each of them once. */
  ghost predicate Bound(handlers: map<MsgId, seq<Component>>, subs: set<(MsgId, Component)>) {
    forall id, c :: Once(HandlersOf(Bus(handlers), id), c, (id, c) in subs)
  }

  ghost function Pairs(c: Component, j: nat): set<(MsgId, Component)>
    requires j <= |Subscribes(c)|
  {
    set id | id in Subscribes(c)[..j] :: (id, c)
  }

  lemma SubscribeBinds(handlers: map<MsgId, seq<Component>>, id: MsgId, c: Component, subs: set<(MsgId, Component)>)
    requires Bound(handlers, subs) && (id, c) !in subs
    ensures Bound(handlers[id := HandlersOf(Bus(handlers), id) + [c]], subs + {(id, c)})
  {
    var more := handlers[id := HandlersOf(Bus(handlers), id) + [c]];
    forall i, d ensures Once(HandlersOf(Bus(more), i), d, (i, d) in subs + {(id, c)}) {
      assert Once(HandlersOf(Bus(handlers), i), d, (i, d) in subs);
      hide *;
      BindsOne(handlers, id, c, subs, i, d);
    }
  }

  lemma BindsOne(handlers: map<MsgId, seq<Component>>, id: MsgId, c: Component, subs: set<(MsgId, Component)>,
                 i: MsgId, d: Component)
    requires Once(HandlersOf(Bus(handlers), i), d, (i, d) in subs) && (id, c) !in subs
    ensures var more := handlers[id := HandlersOf(Bus(handlers), id) + [c]];
            Once(HandlersOf(Bus(more), i), d, (i, d) in subs + {(id, c)})
  {
    if i == id {
      OneMore(HandlersOf(Bus(handlers), id), c, d, (id, d) in subs);
    }
    hide Once;
  }

  lemma OneMore(hs: seq<Component>, c: Component, d: Component, subscribed: bool)
    requires Once(hs, d, subscribed) && (d == c ==> !subscribed)
    ensures Once(hs + [c], d, subscribed || d == c)
  {
    assert multiset(hs + [c]) == multiset(hs) + multiset{c};
  }

  lemma PairsGrow(c: Component, j: nat, subs: set<(MsgId, Component)>)
    requires j < |Subscribes(c)| && forall id :: (id, c) !in subs
    ensures (Subscribes(c)[j], c) !in subs + Pairs(c, j)
    ensures subs + Pairs(c, j + 1) == subs + Pairs(c, j) + {(Subscribes(c)[j], c)}
    ensures Pairs(c, 0) == {}
  {
    SubscribesOnce(c, j);
    hide Subscribes;
    assert Subscribes(c)[..j + 1] == Subscribes(c)[..j] + [Subscribes(c)[j]];
  }

  lemma SubscribesOnce(c: Component, j: nat)
    requires j < |Subscribes(c)|
    ensures Subscribes(c)[j] !in Subscribes(c)[..j]
  {
  }

  lemma NotYet(order: seq<Component>, k: nat)
    requires k < |order| && forall c: Component :: multiset(order)[c] == 1
    ensures order[k] !in order[..k]
  {
    assert order == order[..k] + ([order[k]] + order[k + 1..]);
    assert multiset(order)[order[k]] == 1;
  }

  lemma PairsOfAll(order: seq<Component>, k: nat, subs: set<(MsgId, Component)>)
    requires k < |order|
    requires forall id, c :: (id, c) in subs <==> c in order[..k] && id in Subscribes(c)
    ensures forall id, c ::
              (id, c) in subs + Pairs(order[k], |Subscribes(order[k])|) <==> c in order[..k + 1] && id in Subscribes(c)
  {
    hide Subscribes;
    assert order[..k + 1] == order[..k] + [order[k]];
    assert Subscribes(order[k])[..|Subscribes(order[k])|] == Subscribes(order[k]);
  }

  lemma AllBound(order: seq<Component>, handlers: map<MsgId, seq<Component>>, subs: set<(MsgId, Component)>)
    requires forall c: Component :: multiset(order)[c] == 1
    requires Bound(handlers, subs) && forall id, c :: (id, c) in subs <==> c in order[..|order|] && id in Subscribes(c)
    ensures Wired(Bus(handlers))
  {
    hide Subscribes;
    forall id, c ensures Once(HandlersOf(Bus(handlers), id), c, id in Subscribes(c)) {
      assert multiset(order)[c] == 1;
      assert Once(HandlersOf(Bus(handlers), id), c, (id, c) in subs);
    }
  }

  /** All services on one bus. */
  class App {
    const bus: MessageBus
    const motor: MotorService
    const state: StateService
    const kin: KinematicsService
    const power: PowerService
    const thermal: ThermalService
    const env: EnvironmentService
    const auto: AutonomousService
    var now: int
    var supply: (real, real)
    ghost var sent: seq<Sent>

    ghost function Objects(): set<object>
      reads env
    {
      {this, motor, state, kin, power, thermal, env, auto} + set c | c in env.cache
    }

    function Wiring(): Bus
      reads bus
    {
      Bus(bus.handlers)
    }

    ghost function Value(): World
      reads this, Objects()
    {
      World(motor.State(), state.Cached(), kin.Kinematic(), power.Electric(), thermal.Thermal(),
            EnvState(Regions(env.cache), env.lastRequest), auto.Driving(env.cache), sent, now, supply)
    }

    ghost predicate Valid()
      reads this, Objects()
    {
      && DistinctCells(env.cache)
      && (auto.ptr != null ==> auto.ptr in env.cache)
      && Ok(Value())
    }

    ghost predicate Is(w: World)
      reads this, Objects()
    {
      Valid() && Value() == w
    }

    ghost predicate PayloadOk(p: Payload)
      reads env
    {
      match p
      case Plain(m) => !m.MsgFound?
      case Pointer(cell) => cell in env.cache
    }

    ghost function Meaning(p: Payload): Msg
      requires PayloadOk(p)
      reads env
    {
      match p
      case Plain(m) => m
      case Pointer(cell) => MsgFound(IndexOf(env.cache, cell))
    }

    /** The services, constructed in any order, subscribe as they come. */
    constructor (order: seq<Component>, now: int, supply: (real, real))
      requires forall c: Component :: multiset(order)[c] == 1
      ensures Is(Fresh(now, supply)) && Wired(Wiring()) && fresh(Objects()) && env.cache == []
    {
      hide Wired, Ok, Regions, FreshStatus, Value, Fresh, Rank, DistinctCells, Bound, Valid, Is;
      var b := new MessageBus();
      b.BindAll(order);
      bus := b;
      motor := new MotorService();
      state := new StateService();
      kin := new KinematicsService();
      power := new PowerService();
      thermal := new ThermalService();
      env := new EnvironmentService();
      auto := new AutonomousService();
      this.now, this.supply, sent := now, supply, [];
      new;
      FreshIs(now, supply);
    }

    lemma FreshIs(n: int, s: (real, real))
      requires !motor.active && motor.cmd == Motor.INITIAL.cmd && motor.idx == 0 && motor.remaining == 0
      requires !state.executing && state.lastCmdId == 0 && state.lastRpm == 0 && !state.lastActive
      requires kin.cmdId == 0 && kin.elapsed == 0 && kin.position == 0 && kin.speed == 0
      requires power.cmdId == 0 && power.voltage == 12.6 && power.current == 0.0
      requires thermal.ambient == 20.0 && thermal.motor == 20.0 && thermal.battery == 20.0
      requires env.cache == [] && env.lastRequest == 0
      requires auto.cmd == ROUTELESS.cmd && auto.idx == 0 && !auto.active && auto.ptr == null
               && auto.status == FreshStatus(0)
      requires auto.energy == auto.startEnergy == auto.startPos == auto.lastPos == auto.from == 0.0
      requires auto.usedEnvs == [] && auto.seen == [] && now == n && supply == s && sent == []
      ensures Is(Fresh(n, s))
    {
      hide FreshStatus, Wiring, Ok;
      FreshOk(n, s);
    }

    /** One round of clock_loop. */
    method ClockTick()
      requires Valid()
      modifies Objects()
      ensures Is(Mesh.Publish(Wiring(), MsgTick(Snapshot(old(Value()).state)), old(Value())))
    {
      hide Ok, Mesh.Publish, Frame;
      var t := state.ReadTick();
      Publish(Plain(MsgTick(t)));
    }

    method Publish(p: Payload)
      requires Valid() && PayloadOk(p)
      modifies Objects()
      ensures Is(Mesh.Publish(Wiring(), old(Meaning(p)), old(Value())))
      ensures Kept(old(env.cache), old(Meaning(p)).Id())
      ensures forall c | c in env.cache :: c in old(env.cache) || fresh(c)
      decreases Rank(Meaning(p).Id()), 3, 0
    {
      hide Ok, Mesh.Publish, Deliver, Frame, Valid, Value, PayloadOk, Meant, Meaning, Rank, Msg.Id, HandlersOf,
        Handlers;
      ghost var m, w, cells := Meaning(p), Value(), env.cache;
      ValidMeansOk(p);
      MeantNow(p);
      PublishDelivers(Wiring(), m, w);
      var hs := Handlers(p);
      HandlersMatch(p);
      Note(m);
      MeaningStays(p, m, cells);
      Dispatch(hs, p);
    }

    function IdOf(p: Payload): MsgId {
      if p.Plain? then p.m.Id() else InternalEnvData
    }

    function Handlers(p: Payload): seq<Component>
      reads bus
    {
      if IdOf(p) in bus.handlers then bus.handlers[IdOf(p)] else []
    }

    ghost method Note(m: Msg)
      requires Valid()
      modifies this`sent
      ensures Is(var w := old(Value()); w.(sent := w.sent + [Sent(m, w.now)]))
    {
      SentOk(Value(), m);
      hide Ok, Regions, DistinctCells;
      sent := sent + [Sent(m, now)];
    }

    /** The loop over the handlers. */
    method Dispatch(hs: seq<Component>, p: Payload)
      requires Valid() && PayloadOk(p)
      modifies Objects()
      ensures Is(Deliver(Wiring(), hs, old(Meaning(p)), old(Value())))
      ensures Kept(old(env.cache), old(Meaning(p)).Id())
      ensures forall c | c in env.cache :: c in old(env.cache) || fresh(c)
      decreases Rank(Meaning(p).Id()), 2, 0
    {
      hide Ok, Deliver, Handle, Frame, Valid, Value, PayloadOk, Meaning;
      ghost var m, w, cells := Meaning(p), Value(), env.cache;
      var k := 0;
      ValidMeansOk(p);
      MeantNow(p);
      hide Meant;
      DeliverNobody(Wiring(), m, w);
      while k < |hs|
        invariant 0 <= k <= |hs|
        invariant Is(Deliver(Wiring(), hs[..k], m, w))
        invariant Kept(cells, m.Id()) && PayloadOk(p) && Meaning(p) == m
        invariant forall c | c in env.cache :: c in cells || fresh(c)
      {
        DeliverSnoc(Wiring(), hs, k, m, w);
        Call(hs[k], p);
        MeaningStays(p, m, cells);
        k := k + 1;
      }
      assert hs[..k] == hs;
    }

    lemma ValidMeansOk(p: Payload)
      requires Valid() && PayloadOk(p)
      ensures Ok(Value()) && MsgOk(Meaning(p), Value())
    {
    }

    /** What `p` meant when the cache held `cells`. */
    ghost predicate Meant(p: Payload, m: Msg, cells: seq<Cell>) {
      match p
      case Plain(msg) => !msg.MsgFound? && m == msg
      case Pointer(cell) => cell in cells && m == MsgFound(IndexOf(cells, cell))
    }

    /** A pointer means the same entry while the cache grows. */
    lemma MeaningStays(p: Payload, m: Msg, cells: seq<Cell>)
      requires Valid() && cells <= env.cache && Meant(p, m, cells)
      ensures PayloadOk(p) && Meaning(p) == m
    {
      if p.Pointer? {
        var i := IndexOf(cells, p.cell);
        assert env.cache[i] == p.cell;
        IndexOfDistinct(env.cache, i);
      }
    }

    lemma HandlersMatch(p: Payload)
      requires PayloadOk(p)
      ensures Handlers(p) == HandlersOf(Wiring(), Meaning(p).Id())
    {
    }

    lemma MeantNow(p: Payload)
      requires PayloadOk(p)
      ensures Meant(p, Meaning(p), env.cache)
    {
    }

    /** The cache grows at its end, and only for the data of a new region. */
    ghost predicate Kept(cells: seq<Cell>, id: MsgId)
      reads env
    {
      cells <= env.cache && (id != EnvironmentData ==> env.cache == cells)
    }

    /** The subscribed on_message of one component. */
    method Call(c: Component, p: Payload)
      requires Valid() && PayloadOk(p)
      modifies Objects()
      ensures Is(Handle(Wiring(), c, old(Meaning(p)), old(Value())))
      ensures Kept(old(env.cache), old(Meaning(p)).Id())
      ensures forall c | c in env.cache :: c in old(env.cache) || fresh(c)
      decreases Rank(Meaning(p).Id()), 1, 0
    {
      hide Ok, Frame, Regions, Handle;
      if c == AutonomousC {
        CallAutonomous(p);
      } else if c == EnvironmentC {
        CallEnvironment(p);
      } else if c == MotorC {
        CallMotor(p);
      } else if p.Plain? && Publishing(c, p.m) {
        CallRequest(c, p);
      } else {
        CallQuiet(c, p);
      }
    }

    method AddPower(power: Power)
      requires Valid()
      modifies Objects()
      ensures Is(Quiet(AutonomousC, MsgPower(power), old(Value())))
      ensures env.cache == old(env.cache)
    {
      ghost var w := Value();
      hide Ok, Frame, Regions;
      auto.OnPower(power);
      assert Value() == Quiet(AutonomousC, MsgPower(power), w);
    }

    method CallPower(power: Power)
      requires Valid()
      modifies Objects()
      ensures Is(Handle(Wiring(), AutonomousC, MsgPower(power), old(Value())))
      ensures env.cache == old(env.cache)
    {
      hide Ok, Frame, Regions, Handle, Quiet, Value;
      QuietHandled(Wiring(), AutonomousC, MsgPower(power), Value());
      AddPower(power);
    }

    method CallRoute(cmd: RoutePlan)
      requires Valid()
      modifies Objects()
      ensures Is(Handle(Wiring(), AutonomousC, MsgRoute(cmd), old(Value())))
      ensures env.cache == old(env.cache)
      decreases Rank(AutoDriveCommand), 0, 8
    {
      hide Ok, Frame, Regions, Handle, AutoOnRoute, AutoOnKinematics, AutoOnTick, AutoOnFound, Value;
      AutonomousHandles(Wiring(), MsgRoute(cmd), Value());
      auto.OnRoute(cmd, this);
    }

    method CallKinematics(k: Kinematics)
      requires Valid()
      modifies Objects()
      ensures Is(Handle(Wiring(), AutonomousC, MsgKinematics(k), old(Value())))
      ensures env.cache == old(env.cache)
      decreases Rank(KinematicsData), 0, 8
    {
      hide Ok, Frame, Regions, Handle, AutoOnRoute, AutoOnKinematics, AutoOnTick, AutoOnFound, Value;
      AutonomousHandles(Wiring(), MsgKinematics(k), Value());
      auto.OnKinematics(k, this);
    }

    method CallTick(t: Tick)
      requires Valid()
      modifies Objects()
      ensures Is(Handle(Wiring(), AutonomousC, MsgTick(t), old(Value())))
      ensures env.cache == old(env.cache)
      decreases Rank(PhysicsTick), 0, 8
    {
      hide Ok, Frame, Regions, Handle, AutoOnRoute, AutoOnKinematics, AutoOnTick, AutoOnFound, Value;
      AutonomousHandles(Wiring(), MsgTick(t), Value());
      auto.OnTick(this);
    }

    /** The controller is pointed at the entry in position `at`. */
    method CallFound(cell: Cell, ghost at: nat)
      requires Valid() && cell in env.cache && at == IndexOf(env.cache, cell)
      modifies Objects()
      ensures Is(AutoOnFound(Wiring(), at, old(Value())))
      ensures env.cache == old(env.cache)
      decreases Rank(InternalEnvData), 0, 8
    {
      hide *;
      auto.OnFound(cell, this);
    }

    lemma FoundIs(bus: Bus, cell: Cell)
      requires Valid() && cell in env.cache
      ensures var at := IndexOf(env.cache, cell);
              && at < |Value().env.cache| && MsgOk(MsgFound(at), Value())
              && Handle(bus, AutonomousC, MsgFound(at), Value()) == AutoOnFound(bus, at, Value())
    {
      hide Ok, Frame, Handle, AutoOnFound;
      FoundHandles(bus, IndexOf(env.cache, cell), Value());
    }

    method CallAutonomous(p: Payload)
      requires Valid() && PayloadOk(p)
      modifies Objects()
      ensures Is(Handle(Wiring(), AutonomousC, old(Meaning(p)), old(Value())))
      ensures env.cache == old(env.cache)
      decreases Rank(Meaning(p).Id()), 0, 9
    {
      hide Ok, Frame, Regions, Handle, Value, AutoOnFound, IndexOf, DistinctCells;
      match p
      case Plain(MsgRoute(cmd)) => CallRoute(cmd);
      case Plain(MsgKinematics(k)) => CallKinematics(k);
      case Plain(MsgTick(t)) => CallTick(t);
      case Plain(MsgPower(power)) => CallPower(power);
      case Pointer(cell) =>
        FoundIs(Wiring(), cell);
        CallFound(cell, IndexOf(env.cache, cell));
      case Plain(m) => AutonomousHandles(Wiring(), m, Value());
    }

    method CallEnvironment(p: Payload)
      requires Valid() && PayloadOk(p)
      modifies Objects()
      ensures Is(Handle(Wiring(), EnvironmentC, old(Meaning(p)), old(Value())))
      ensures Kept(old(env.cache), old(Meaning(p)).Id())
      ensures forall c | c in env.cache :: c in old(env.cache) || fresh(c)
      decreases Rank(Meaning(p).Id()), 0, 7
    {
      hide Ok, Frame, Regions, EnvOnRegion, EnvOnLookup;
      match p
      case Plain(MsgRegion(e)) => env.OnRegion(e, this);
      case Plain(MsgLookup(x, y)) => env.OnLookup(x, y, this);
      case _ =>
    }

    method CallMotor(p: Payload)
      requires Valid() && PayloadOk(p)
      modifies Objects()
      ensures Is(Handle(Wiring(), MotorC, old(Meaning(p)), old(Value())))
      ensures env.cache == old(env.cache)
      decreases Rank(Meaning(p).Id()), 0, 7
    {
      hide Ok, Frame, Regions, MotorOnSequence, MotorOnTick;
      match p
      case Plain(MsgSequence(cmd)) => motor.OnSequence(cmd, this);
      case Plain(MsgTick(t)) => motor.OnTick(t, this);
      case _ =>
    }

    /** The services that answer a request: they copy their fields under the lock, and publish without it. */
    method CallRequest(c: Component, p: Payload)
      requires Valid() && PayloadOk(p) && Publishing(c, Meaning(p)) && c in {KinematicsC, PowerC, StateC, ThermalC}
      modifies Objects()
      ensures Is(Handle(Wiring(), c, old(Meaning(p)), old(Value())))
      ensures env.cache == old(env.cache)
      decreases Rank(Meaning(p).Id()), 0, 7
    {
      hide Ok, Frame, Regions, Mesh.Publish;
      match c
      case KinematicsC => Publish(Plain(MsgKinematics(Kinematics(kin.cmdId, kin.elapsed, kin.position, kin.speed))));
      case PowerC => Publish(Plain(MsgPower(Power(power.cmdId, power.voltage, power.current))));
      case StateC => Publish(Plain(MsgState(state.executing)));
      case ThermalC => Publish(Plain(MsgThermal(thermal.motor, thermal.battery)));
      case _ =>
    }

    method CallQuiet(c: Component, p: Payload)
      requires Valid() && PayloadOk(p) && !Publishing(c, Meaning(p)) && c !in {AutonomousC, EnvironmentC, MotorC}
      modifies Objects()
      ensures Is(Handle(Wiring(), c, old(Meaning(p)), old(Value())))
      ensures env.cache == old(env.cache)
    {
      ghost var w, m := Value(), Meaning(p);
      QuietHandled(Wiring(), c, m, w);
      hide Ok, Frame, Regions, Handle, Quiet, Publishing;
      if c == KinematicsC || c == PowerC {
        CallDrive(c, p);
      } else {
        CallState(c, p);
      }
    }

    method CallDrive(c: Component, p: Payload)
      requires Valid() && PayloadOk(p) && c in {KinematicsC, PowerC}
      modifies Objects()
      ensures Is(Quiet(c, old(Meaning(p)), old(Value())))
      ensures env.cache == old(env.cache)
    {
      hide Ok, Frame, Regions, Integrate, KinOnStatus, PowerOnStatus;
      match (c, p)
      case (KinematicsC, Plain(MsgTick(t))) => kin.OnTick(t);
      case (KinematicsC, Plain(MsgStatus(s))) => kin.OnStatus(s);
      case (PowerC, Plain(MsgTick(t))) => power.OnTick(t, supply);
      case (PowerC, Plain(MsgStatus(s))) => power.OnStatus(s);
      case _ =>
    }

    method CallState(c: Component, p: Payload)
      requires Valid() && PayloadOk(p) && c !in {AutonomousC, EnvironmentC, MotorC, KinematicsC, PowerC}
      modifies Objects()
      ensures Is(Quiet(c, old(Meaning(p)), old(Value())))
      ensures env.cache == old(env.cache)
    {
      hide Ok, Frame, Regions, CacheStatus, Heat;
      match (c, p)
      case (StateC, Plain(MsgStatus(s))) => state.OnStatus(s);
      case (ThermalC, Plain(MsgTick(t))) => thermal.OnTick(t);
      case (ThermalC, Plain(MsgRegion(e))) => thermal.OnRegion(e);
      case _ =>
    }
  }
}
