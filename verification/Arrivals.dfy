/** What the client can send: which datagrams the bridge publishes, and what arrives of the typed messages. */
module Arrivals {
  import opened Wrappers
  import opened Bytes
  import opened Messages
  import opened StructFormat
  import opened Schema
  import opened Generator
  import opened PackProofs
  import opened UnpackProofs
  import opened Protocol
  import opened Bridge
  import opened EndToEnd
  import Route
  import Mesh
  import MeshCommands
  import Threads

  // ---- which messages cross ------------------------------------------------------------------------

  /** What the client may have published. */
  predicate FromClient(id: MsgId) {
    id in {StateRequest, MotorSequence, KinematicsRequest, PowerRequest, ThermalRequest, AutoDriveCommand,
           EnvironmentData}
  }

  lemma PublishedIds(id: MsgId)
    ensures id in PUBLISHES <==> FromClient(id)
  {
    assert PUBLISHES[0] == StateRequest && PUBLISHES[1] == MotorSequence && PUBLISHES[2] == KinematicsRequest;
    assert PUBLISHES[3] == PowerRequest && PUBLISHES[4] == ThermalRequest && PUBLISHES[5] == AutoDriveCommand;
    assert PUBLISHES[6] == EnvironmentData;
  }

  /** Apart from log records and the clock's tick, threads start with exactly what the bridge may publish. */
  lemma InjectableIsEntry(m: Msg)
    ensures m.Id() in PUBLISHES <==> m.Id() != Log && Threads.Entry(Threads.Emit(m))
  {
    PublishedIds(m.Id());
  }

  /** Every message goes into the simulator, or out of it, or stays inside, and never two of these. */
  lemma CrossesOneWay(id: MsgId)
    ensures id in Subscribes(BridgeC) <==>
              id !in PUBLISHES && id !in {PhysicsTick, MotorStatus, InternalEnvRequest, InternalEnvData}
  {
    PublishedIds(id);
  }

  /**
    The bridge publishes a payload object for a datagram exactly if the datagram is the frame of one of the seven
    messages, with a payload of that message's size; so a tick or a status never arrives, whatever is sent.
   */
  lemma InjectedExactly(data: seq<byte>, id: MsgId, memory: seq<byte>)
    ensures |Injected(data)| <= 1
    ensures Injected(data) == [Published(id, memory)] <==>
              data == Frame(id, memory) && FromClient(id) && |memory| == PayloadOf(id).size
  {
    PublishedIds(id);
    if data == Frame(id, memory) && |memory| == PayloadOf(id).size {
      InjectedFrame(id, memory);
    }
    if Injected(data) == [Published(id, memory)] {
      InjectedIsFrame(data, id, memory);
    }
    hide PayloadOf, Frame, FromClient;
  }

  lemma InjectedIsFrame(data: seq<byte>, id: MsgId, memory: seq<byte>)
    requires Injected(data) == [Published(id, memory)]
    ensures data == Frame(id, memory) && id in PUBLISHES && |memory| == PayloadOf(id).size
  {
    var n := if |data| < MAX_DATAGRAM then |data| else MAX_DATAGRAM;
    hide PayloadOf, FromWire, WireId, LittleEndian, FromLittleEndian;
    assert memory == data[2..n] && |memory| == PayloadOf(id).size && WireId(id) == FromLittleEndian(data[..2]);
    PayloadsFit(id);
    LittleEndianWrite(data[..2]);
    assert n == |data|;
    assert data == data[..2] + data[2..n];
  }

  // ---- requests --------------------------------------------------------------------------------------

  function RequestCode(id: MsgId): byte
    requires id in {StateRequest, KinematicsRequest, PowerRequest, ThermalRequest}
  {
    match id
    case StateRequest => 2
    case KinematicsRequest => 20
    case PowerRequest => 30
    case ThermalRequest => 40
  }

  /** A request is three bytes, and arrives as it was sent. */
  lemma RequestArrives(id: MsgId, reserved: byte)
    requires id in {StateRequest, KinematicsRequest, PowerRequest, ThermalRequest}
    ensures var d := SendMsg(id, VObj([VInt(reserved)]));
            d.Some? && d.value == [RequestCode(id), 0, reserved] && Injected(d.value) == [Published(id, [reserved])]
  {
    var vs := [VInt(reserved)];
    FlagImage(id, reserved);
    PublishedIds(id);
    PayloadsRegular(id);
    hide *;
    PackedImage(PayloadOf(id), vs);
    SentIsPublished(id, vs);
    SentFrame(id, vs);
    RequestFrame(id, reserved);
  }

  lemma RequestFrame(id: MsgId, reserved: byte)
    requires id in {StateRequest, KinematicsRequest, PowerRequest, ThermalRequest}
    ensures Frame(id, [reserved]) == [RequestCode(id), 0, reserved]
  {
    HeaderBytes(id, [reserved]);
    FrameHeader(id, [reserved]);
    var d := Frame(id, [reserved]);
    assert d[2] == d[2..][0];
    hide Frame;
  }

  lemma SentFrame(id: MsgId, vs: seq<Value>)
    requires Regular(Class(PayloadOf(id))) && ObjConforms(PayloadOf(id), vs)
    ensures WellLaid(Class(PayloadOf(id))) && Conforms(Class(PayloadOf(id)), VObj(vs))
    ensures SendMsg(id, VObj(vs)) == Some(Frame(id, Image(Class(PayloadOf(id)), VObj(vs))))
    ensures |Frame(id, Image(Class(PayloadOf(id)), VObj(vs)))| == 2 + PayloadOf(id).size
  {
    PackedImage(PayloadOf(id), vs);
    hide Regular, ObjConforms, Image, RunPack, ClassOf, PayloadOf;
  }

  lemma FlagImage(id: MsgId, reserved: byte)
    requires id in {StateRequest, KinematicsRequest, PowerRequest, ThermalRequest}
    ensures var l, vs := PayloadOf(id), [VInt(reserved)];
            && ObjConforms(l, vs) && l.size == 1 && WellLaid(Class(l))
            && Image(Class(l), VObj(vs)) == [reserved] && id != InternalEnvData
  {
    var l, vs := PayloadOf(id), [VInt(reserved)];
    assert Pow256(1) == 256;
    assert ObjConforms(l, vs);
    RequestsRegular(id);
    IntegerStored(l, vs, 0, 0);
  }

  // ---- a route ---------------------------------------------------------------------------------------

  const ROUTE := PayloadOf(AutoDriveCommand)

  function ModeValue(mode: DriveMode): uint8 {
    match mode
    case Eco => 0
    case Performance => 1
    case ManualTuning => 2
  }

  function PointValue(x: seq<byte>, y: seq<byte>): Value { VObj([VFloat(x), VFloat(y)]) }

  function NodeValue(n: Node, y: seq<byte>, bits: real -> seq<byte>): Value {
    VObj([PointValue(bits(n.x), y), VInt(n.timeoutMs)])
  }

  function NodeValues(route: seq<Node>, y: seq<byte>, bits: real -> seq<byte>): (vs: seq<Value>)
    ensures |vs| == |route| && forall k | 0 <= k < |route| :: vs[k] == NodeValue(route[k], y, bits)
  {
    seq(|route|, k requires 0 <= k < |route| => NodeValue(route[k], y, bits))
  }

  /** The Python object for a route; the simulator uses neither its name nor its transform, nor the nodes' y. */
  function RouteFields(cmd: RoutePlan, name: seq<byte>, axes: Value, y: seq<byte>, bits: real -> seq<byte>)
    : (fs: seq<Value>)
    ensures |fs| == 7
  {
    [VBytes(name), VInt(ModeValue(cmd.mode)), VFloat(bits(cmd.gain)), VBool(cmd.tuning), axes, VInt(cmd.numNodes),
     VList(NodeValues(cmd.route, y, bits))]
  }

  function NodeOf(v: Value, float: seq<byte> -> real): Option<Node> {
    if v.VObj? && |v.fields| == 2 && v.fields[1].VInt? && 0 <= v.fields[1].i < 0x1_0000
       && v.fields[0].VObj? && |v.fields[0].fields| == 2 && v.fields[0].fields[0].VFloat?
    then Some(Node(float(v.fields[0].fields[0].bits), v.fields[1].i)) else None
  }

  function NodesOf(vs: seq<Value>, float: seq<byte> -> real): Option<seq<Node>> {
    if vs == [] then Some([])
    else
      var init :- NodesOf(vs[..|vs| - 1], float);
      var last :- NodeOf(vs[|vs| - 1], float);
      Some(init + [last])
  }

  function ModeOf(i: int): Option<DriveMode> {
    if i == 0 then Some(Eco) else if i == 1 then Some(Performance) else if i == 2 then Some(ManualTuning) else None
  }

  /** The C++ object's fields, read as a route. */
  function RouteOf(v: Value, float: seq<byte> -> real): Option<RouteCommand> {
    if !(v.VObj? && |v.fields| == 7) then None
    else
      var fs := v.fields;
      if !(fs[1].VInt? && fs[2].VFloat? && fs[3].VBool? && fs[5].VInt? && fs[6].VList?) then None
      else
        var mode :- ModeOf(fs[1].i);
        var nodes :- NodesOf(fs[6].items, float);
        if 0 <= fs[5].i < 0x100 then Some(RouteCommand(mode, float(fs[2].bits), fs[3].b, fs[5].i, nodes)) else None
  }

  /** `r` can be sent as a float. */
  predicate Float(r: real, bits: real -> seq<byte>, float: seq<byte> -> real) {
    |bits(r)| == 4 && float(bits(r)) == r
  }

  predicate Floats(cmd: RoutePlan, bits: real -> seq<byte>, float: seq<byte> -> real) {
    Float(cmd.gain, bits, float) && forall k | 0 <= k < 8 :: Float(cmd.route[k].x, bits, float)
  }

  lemma {:induction false} NodesRead(route: seq<Node>, y: seq<byte>, bits: real -> seq<byte>, float: seq<byte> -> real)
    requires forall k | 0 <= k < |route| :: Float(route[k].x, bits, float)
    ensures NodesOf(NodeValues(route, y, bits), float) == Some(route)
  {
    if route != [] {
      var init := route[..|route| - 1];
      NodesRead(init, y, bits, float);
      assert NodeValues(route, y, bits)[..|route| - 1] == NodeValues(init, y, bits);
      assert init + [route[|route| - 1]] == route;
      assert Float(route[|route| - 1].x, bits, float);
    }
  }

  lemma NodeConforms(n: Node, y: seq<byte>, bits: real -> seq<byte>)
    requires |bits(n.x)| == 4 && |y| == 4
    ensures var v := NodeValue(n, y, bits); Conforms(Class(MANEUVER), v) && Exact(Class(MANEUVER), v)
  {
    assert Pow256(2) == 65536;
    var point := PointValue(bits(n.x), y);
    assert Conforms(Class(POINT), point) && Exact(Class(POINT), point);
  }

  lemma NodesConform(route: seq<Node>, y: seq<byte>, bits: real -> seq<byte>)
    requires |route| == 8 && |y| == 4 && forall k | 0 <= k < 8 :: |bits(route[k].x)| == 4
    ensures var t, v := Many(MANEUVER, 8), VList(NodeValues(route, y, bits)); Conforms(t, v) && Exact(t, v)
  {
    hide NodeValue, Conforms, Exact;
    forall k | 0 <= k < 8
      ensures var v := NodeValue(route[k], y, bits); Conforms(Class(MANEUVER), v) && Exact(Class(MANEUVER), v)
    {
      NodeConforms(route[k], y, bits);
    }
    NodeList(NodeValues(route, y, bits));
  }

  lemma NodeList(vs: seq<Value>)
    requires |vs| == 8
    requires forall k | 0 <= k < 8 :: Conforms(Class(MANEUVER), vs[k]) && Exact(Class(MANEUVER), vs[k])
    ensures Conforms(Many(MANEUVER, 8), VList(vs)) && Exact(Many(MANEUVER, 8), VList(vs))
  {
    assert !IsBytes(Many(MANEUVER, 8));
  }

  lemma RouteConforms(cmd: RoutePlan, name: seq<byte>, axes: Value, y: seq<byte>, bits: real -> seq<byte>,
                      float: seq<byte> -> real)
    requires Floats(cmd, bits, float) && |y| == 4 && Conforms(Many(VECTOR, 3), axes)
    ensures ObjConforms(ROUTE, RouteFields(cmd, name, axes, y, bits))
    ensures Conforms(Many(MANEUVER, 8), VList(NodeValues(cmd.route, y, bits)))
    ensures Normal(Many(MANEUVER, 8), VList(NodeValues(cmd.route, y, bits))) == VList(NodeValues(cmd.route, y, bits))
  {
    assert forall k | 0 <= k < 8 :: Float(cmd.route[k].x, bits, float);
    NodesConform(cmd.route, y, bits);
    assert Pow256(1) == 256;
    assert Conforms(Chars(32), VBytes(name)) && Conforms(Enumeration(1), VInt(ModeValue(cmd.mode)));
    hide NodeValues, Many, Chars, Normal, Exact;
    NormalIffExact(Many(MANEUVER, 8), VList(NodeValues(cmd.route, y, bits)));
  }

  lemma RouteRead(cmd: RoutePlan, name: seq<byte>, axes: Value, y: seq<byte>, bits: real -> seq<byte>,
                  float: seq<byte> -> real)
    requires Floats(cmd, bits, float) && |y| == 4 && Conforms(Many(VECTOR, 3), axes)
    ensures Conforms(Class(ROUTE), VObj(RouteFields(cmd, name, axes, y, bits)))
    ensures RouteOf(Normal(Class(ROUTE), VObj(RouteFields(cmd, name, axes, y, bits))), float) == Some(cmd)
  {
    var fs := RouteFields(cmd, name, axes, y, bits);
    RouteConforms(cmd, name, axes, y, bits, float);
    NormalFields(ROUTE, fs);
    FieldsOfRoute();
    hide NodeValues, Many, Chars, ObjConforms, Floats, Normal, RouteOf, PayloadOf, Conforms;
    ScalarNormal(Enumeration(1), fs[1]);
    ScalarNormal(F32, fs[2]);
    ScalarNormal(Boolean, fs[3]);
    ScalarNormal(U8, fs[5]);
    RouteFromFields(cmd, name, axes, y, bits, float, Normal(Class(ROUTE), VObj(fs)).fields);
  }

  lemma FieldsOfRoute()
    ensures var fs := ROUTE.fields;
            && |fs| == 7 && fs[1].ty == Enumeration(1) && fs[2].ty == F32 && fs[3].ty == Boolean && fs[5].ty == U8
            && fs[6].ty == Many(MANEUVER, 8)
  {
  }

  lemma ScalarNormal(t: CType, v: Value)
    requires Conforms(t, v) && !t.Array? && !t.Class?
    ensures Normal(t, v) == v
  {
  }

  lemma RouteFromFields(cmd: RoutePlan, name: seq<byte>, axes: Value, y: seq<byte>, bits: real -> seq<byte>,
                        float: seq<byte> -> real, ns: seq<Value>)
    requires Floats(cmd, bits, float)
    requires var fs := RouteFields(cmd, name, axes, y, bits);
             && |ns| == 7 && ns[1] == fs[1] && ns[2] == fs[2] && ns[3] == fs[3] && ns[5] == fs[5] && ns[6] == fs[6]
    ensures RouteOf(VObj(ns), float) == Some(cmd)
  {
    assert Float(cmd.gain, bits, float);
    NodesRead(cmd.route, y, bits, float);
    hide NodeValues, NodesOf;
  }

  lemma NormalFields(l: Layout, fs: seq<Value>)
    requires ObjConforms(l, fs)
    ensures Conforms(Class(l), VObj(fs))
    ensures var v := Normal(Class(l), VObj(fs)); v.VObj? && |v.fields| == |fs|
    ensures forall k | 0 <= k < |fs| ::
              && Conforms(l.fields[k].ty, fs[k])
              && Normal(Class(l), VObj(fs)).fields[k] == Normal(l.fields[k].ty, fs[k])
  {
  }

  /** A route command sent by the client is published once, as the same command. */
  lemma RouteArrives(cmd: RoutePlan, name: seq<byte>, axes: Value, y: seq<byte>, bits: real -> seq<byte>,
                     float: seq<byte> -> real)
    requires Floats(cmd, bits, float) && |y| == 4 && Conforms(Many(VECTOR, 3), axes)
    ensures var d := SendMsg(AutoDriveCommand, VObj(RouteFields(cmd, name, axes, y, bits)));
            && d.Some? && |d.value| == 182 && d.value[0] == 60 && d.value[1] == 0
            && var published := Injected(d.value);
               && |published| == 1 && published[0].id == AutoDriveCommand
               && |published[0].memory| == ROUTE.size && WellLaid(Class(ROUTE))
               && RouteOf(Read(Class(ROUTE), published[0].memory), float) == Some(cmd)
  {
    var fs := RouteFields(cmd, name, axes, y, bits);
    RouteConforms(cmd, name, axes, y, bits, float);
    RouteRead(cmd, name, axes, y, bits, float);
    PublishedIds(AutoDriveCommand);
    PayloadsRegular(AutoDriveCommand);
    hide *;
    CommandHeader(fs);
    SentIsPublished(AutoDriveCommand, fs);
    PackedImage(ROUTE, fs);
  }

  lemma SentHeader(id: MsgId, vs: seq<Value>)
    requires Regular(Class(PayloadOf(id))) && ObjConforms(PayloadOf(id), vs)
    ensures var d := SendMsg(id, VObj(vs));
            && d.Some? && |d.value| == 2 + PayloadOf(id).size
            && d.value[0] == WireId(id) % 256 && d.value[1] == WireId(id) / 256
  {
    hide *;
    SentFrame(id, vs);
    HeaderBytes(id, Image(Class(PayloadOf(id)), VObj(vs)));
  }

  lemma CommandHeader(vs: seq<Value>)
    requires Regular(Class(ROUTE)) && ObjConforms(ROUTE, vs)
    ensures var d := SendMsg(AutoDriveCommand, VObj(vs));
            d.Some? && |d.value| == 182 && d.value[0] == 60 && d.value[1] == 0
  {
    hide *;
    Headers();
    SentHeader(AutoDriveCommand, vs);
  }

  lemma Headers()
    ensures ROUTE == PayloadOf(AutoDriveCommand) && ROUTE.size == 180 && WireId(AutoDriveCommand) == 60
    ensures REGION == PayloadOf(EnvironmentData) && REGION.size == 36 && WireId(EnvironmentData) == 52
  {
  }

  lemma RegionHeader(vs: seq<Value>)
    requires Regular(Class(REGION)) && ObjConforms(REGION, vs)
    ensures var d := SendMsg(EnvironmentData, VObj(vs));
            d.Some? && |d.value| == 38 && d.value[0] == 52 && d.value[1] == 0
  {
    hide *;
    Headers();
    SentHeader(EnvironmentData, vs);
  }

  /**
    The client sends a route with at least one node; the bridge publishes what it reads from the datagram; and the
    controller begins that route, and commands the motor towards its first node.
   */
  lemma {:induction false} SentRouteDrives(bus: Mesh.Bus, w: Mesh.World, cmd: RoutePlan, name: seq<byte>, axes: Value,
                                           y: seq<byte>, bits: real -> seq<byte>, float: seq<byte> -> real)
    requires Mesh.Ok(w) && Mesh.Wired(bus) && cmd.numNodes > 0
    requires Floats(cmd, bits, float) && |y| == 4 && Conforms(Many(VECTOR, 3), axes)
    ensures var d := SendMsg(AutoDriveCommand, VObj(RouteFields(cmd, name, axes, y, bits)));
            && d.Some? && |Injected(d.value)| == 1
            && var memory := Injected(d.value)[0].memory;
               && |memory| == ROUTE.size && WellLaid(Class(ROUTE))
               && var received := RouteOf(Read(Class(ROUTE), memory), float);
                  && received == Some(cmd)
                  && var w' := Mesh.Publish(bus, MsgRoute(cmd), w);
                     && MeshCommands.Begun(cmd, w.auto.lastPos, w'.auto)
                     && |w'.sent| > |w.sent| + 1 && w'.sent[|w.sent| + 1].msg.MsgSequence?
                     && Route.DrivesTo(w'.sent[|w.sent| + 1].msg.seq_, cmd, cmd.route[0], None)
  {
    RouteArrives(cmd, name, axes, y, bits, float);
    MeshCommands.RouteCommands(bus, cmd, w);
    hide *;
  }

  // ---- region data -------------------------------------------------------------------------------------

  const REGION := PayloadOf(EnvironmentData)

  /** The Python object for a region; the simulator does not use the friction. */
  function RegionFields(e: Region, friction: seq<byte>, bits: real -> seq<byte>): (fs: seq<Value>)
    ensures |fs| == 6
  {
    [VInt(e.id),
     VObj([PointValue(bits(e.minX), bits(e.minY)), PointValue(bits(e.maxX), bits(e.maxY))]),
     VFloat(bits(e.ambient)), VFloat(bits(e.incline)), VFloat(friction), VFloat(bits(e.maxSpeed))]
  }

  function PointOf(v: Value, float: seq<byte> -> real): Option<(real, real)> {
    if v.VObj? && |v.fields| == 2 && v.fields[0].VFloat? && v.fields[1].VFloat?
    then Some((float(v.fields[0].bits), float(v.fields[1].bits))) else None
  }

  /** The C++ object's fields, read as a region. */
  function RegionOf(v: Value, float: seq<byte> -> real): Option<Region> {
    if !(v.VObj? && |v.fields| == 6) then None
    else
      var fs := v.fields;
      if !(fs[0].VInt? && 0 <= fs[0].i < 0x1_0000_0000 && fs[1].VObj? && |fs[1].fields| == 2
           && fs[2].VFloat? && fs[3].VFloat? && fs[5].VFloat?) then None
      else
        var lo :- PointOf(fs[1].fields[0], float);
        var hi :- PointOf(fs[1].fields[1], float);
        Some(Region(fs[0].i, lo.0, lo.1, hi.0, hi.1, float(fs[2].bits), float(fs[3].bits), float(fs[5].bits)))
  }

  predicate RegionFloats(e: Region, bits: real -> seq<byte>, float: seq<byte> -> real) {
    && Float(e.minX, bits, float) && Float(e.minY, bits, float) && Float(e.maxX, bits, float)
    && Float(e.maxY, bits, float) && Float(e.ambient, bits, float) && Float(e.incline, bits, float)
    && Float(e.maxSpeed, bits, float)
  }

  lemma BoxConforms(a: seq<byte>, b: seq<byte>, c: seq<byte>, d: seq<byte>)
    requires |a| == |b| == |c| == |d| == 4
    ensures var v := VObj([PointValue(a, b), PointValue(c, d)]);
            Conforms(Class(BOX), v) && Exact(Class(BOX), v)
  {
    PointConforms(a, b);
    PointConforms(c, d);
    hide PointValue;
  }

  lemma PointConforms(a: seq<byte>, b: seq<byte>)
    requires |a| == |b| == 4
    ensures Conforms(Class(POINT), PointValue(a, b)) && Exact(Class(POINT), PointValue(a, b))
  {
  }

  lemma RegionConforms(e: Region, friction: seq<byte>, bits: real -> seq<byte>, float: seq<byte> -> real)
    requires RegionFloats(e, bits, float) && |friction| == 4
    ensures var fs := RegionFields(e, friction, bits);
            ObjConforms(REGION, fs) && Exact(Class(REGION), VObj(fs))
  {
    BoxConforms(bits(e.minX), bits(e.minY), bits(e.maxX), bits(e.maxY));
    assert Pow256(4) == 0x1_0000_0000;
    hide PointValue;
  }

  lemma RegionRead(e: Region, friction: seq<byte>, bits: real -> seq<byte>, float: seq<byte> -> real)
    requires RegionFloats(e, bits, float)
    ensures RegionOf(VObj(RegionFields(e, friction, bits)), float) == Some(e)
  {
  }

  /** Region data sent by the client are published once, as the same region. */
  lemma RegionArrives(e: Region, friction: seq<byte>, bits: real -> seq<byte>, float: seq<byte> -> real)
    requires RegionFloats(e, bits, float) && |friction| == 4
    ensures var d := SendMsg(EnvironmentData, VObj(RegionFields(e, friction, bits)));
            && d.Some? && |d.value| == 38 && d.value[0] == 52 && d.value[1] == 0
            && var published := Injected(d.value);
               && |published| == 1 && published[0].id == EnvironmentData
               && |published[0].memory| == REGION.size && WellLaid(Class(REGION))
               && RegionOf(Read(Class(REGION), published[0].memory), float) == Some(e)
  {
    var fs := RegionFields(e, friction, bits);
    RegionConforms(e, friction, bits, float);
    RegionRead(e, friction, bits, float);
    PublishedIds(EnvironmentData);
    PayloadsRegular(EnvironmentData);
    hide *;
    RegionHeader(fs);
    SentIsPublished(EnvironmentData, fs);
    PackedImage(REGION, fs);
    NormalIffExact(Class(REGION), VObj(fs));
  }

  // ---- a motor sequence, byte by byte --------------------------------------------------------------------

  /** Byte `i` of the `size` bytes of `v`: of weight 256^i, in two's complement. */
  function ByteOf(v: int, size: nat, i: nat): int { (Unsigned(size, v) / Pow256(i)) % 256 }

  /** `s` holds a step from `o` on: the speed in two bytes, two of padding, the duration in four. */
  predicate StepAt(s: seq<byte>, o: nat, c: SubCmd) {
    && o + 8 <= |s|
    && (forall i | 0 <= i < 2 :: s[o + i] == ByteOf(c.speed, 2, i))
    && s[o + 2] == s[o + 3] == 0
    && (forall i | 0 <= i < 4 :: s[o + 4 + i] == ByteOf(c.duration, 4, i))
  }

  lemma StepImage(c: SubCmd)
    ensures WellLaid(Class(SUB_CMD)) && Conforms(Class(SUB_CMD), SubCmdValue(c))
    ensures StepAt(Image(Class(SUB_CMD), SubCmdValue(c)), 0, c)
  {
    PartsRegular();
    SubCmdConforms(c);
    hide Image;
    var vs := [VInt(c.speed), VInt(c.duration)];
    forall i | 0 <= i < 2 ensures Image(Class(SUB_CMD), VObj(vs))[i] == ByteOf(c.speed, 2, i) {
      IntegerStored(SUB_CMD, vs, 0, i);
    }
    forall i | 0 <= i < 4 ensures Image(Class(SUB_CMD), VObj(vs))[4 + i] == ByteOf(c.duration, 4, i) {
      IntegerStored(SUB_CMD, vs, 1, i);
    }
    GapIsZero(SUB_CMD, vs, 2);
    GapIsZero(SUB_CMD, vs, 3);
  }

  lemma GapIsZero(l: Layout, vs: seq<Value>, i: nat)
    requires LaidOut(l) && ObjConforms(l, vs) && i < l.size && Padding(l, |l.fields|, i)
    ensures Image(Class(l), VObj(vs))[i] == 0
  {
    PaddingIsZero(l, vs, |l.fields|, i);
  }

  lemma StepMoved(b: seq<byte>, lo: nat, hi: nat, o: nat, c: SubCmd)
    requires lo <= hi <= |b| && StepAt(b[lo..hi], o, c)
    ensures StepAt(b, lo + o, c)
  {
    var s := b[lo..hi];
    hide ByteOf;
    assert s[o + 2] == b[lo + o + 2] && s[o + 3] == b[lo + o + 3];
    forall i | 0 <= i < 2 ensures b[lo + o + i] == ByteOf(c.speed, 2, i) {
      assert s[o + i] == b[lo + o + i];
    }
    forall i | 0 <= i < 4 ensures b[lo + o + 4 + i] == ByteOf(c.duration, 4, i) {
      assert s[o + (4 + i)] == s[o + 4 + i] == b[lo + o + (4 + i)];
    }
  }

  lemma StepsImage(steps: Steps, k: nat)
    requires k < 5
    ensures Conforms(Many(SUB_CMD, 5), VList(SubCmdValues(steps))) && WellLaid(Many(SUB_CMD, 5))
    ensures StepAt(Image(Many(SUB_CMD, 5), VList(SubCmdValues(steps))), 8 * k, steps[k])
  {
    var elem, vs := Class(SUB_CMD), SubCmdValues(steps);
    StepsConform(steps);
    PartsRegular();
    StepImage(steps[k]);
    forall i | 0 <= i < 5 ensures Conforms(elem, vs[i]) {
      SubCmdConforms(steps[i]);
    }
    assert !IsBytes(Many(SUB_CMD, 5)) && Times(k, 8) == 8 * k;
    hide Image, StepAt, SubCmdValue, Conforms;
    ElementStored(elem, vs, k);
    StepMoved(ElemsImage(elem, vs), 8 * k, 8 * k + 8, 0, steps[k]);
    ImageOfList(SUB_CMD, 5, vs);
  }

  lemma ImageOfList(l: Layout, n: nat, vs: seq<Value>)
    requires WellLaid(Many(l, n)) && Conforms(Many(l, n), VList(vs))
    ensures WellLaid(Class(l)) && forall i | 0 <= i < |vs| :: Conforms(Class(l), vs[i])
    ensures Image(Many(l, n), VList(vs)) == ElemsImage(Class(l), vs)
  {
    assert !IsBytes(Many(l, n));
  }

  /** The bytes of a sequence in memory. */
  lemma SequenceImage(cmd: Sequence)
    ensures WellLaid(Class(SEQUENCE)) && ObjConforms(SEQUENCE, SequenceFields(cmd)) && Regular(Class(SEQUENCE))
    ensures Conforms(Class(SEQUENCE), VObj(SequenceFields(cmd)))
    ensures var b := Image(Class(SEQUENCE), VObj(SequenceFields(cmd)));
            && |b| == 48 && b[4] == cmd.numSteps && b[5] == b[6] == b[7] == 0
            && (forall i | 0 <= i < 4 :: b[i] == ByteOf(cmd.cmdId, 4, i))
            && forall k | 0 <= k < 5 :: StepAt(b, 8 + 8 * k, cmd.steps[k])
  {
    var fs := SequenceFields(cmd);
    SequenceConforms(cmd);
    SequenceRegular();
    RegularLaid(Class(SEQUENCE));
    SequenceOffsets();
    hide Image, StepAt, Regular, SequenceFields, SubCmdValues, PayloadOf, ObjConforms;
    SequenceHead(cmd);
    forall k | 0 <= k < 5 ensures StepAt(Image(Class(SEQUENCE), VObj(fs)), 8 + 8 * k, cmd.steps[k]) {
      SequenceStep(cmd, k);
    }
  }

  lemma SequenceOffsets()
    ensures var fs := SEQUENCE.fields;
            && |fs| == 3 && fs[0] == Field("cmd_id", U32, 0) && fs[1] == Field("num_steps", U8, 4)
            && fs[2] == Field("steps", Many(SUB_CMD, 5), 8) && SEQUENCE.size == 48
  {
  }

  lemma SequenceHead(cmd: Sequence)
    requires WellLaid(Class(SEQUENCE)) && ObjConforms(SEQUENCE, SequenceFields(cmd))
    ensures var b := Image(Class(SEQUENCE), VObj(SequenceFields(cmd)));
            && |b| == 48 && b[4] == cmd.numSteps && b[5] == b[6] == b[7] == 0
            && forall i | 0 <= i < 4 :: b[i] == ByteOf(cmd.cmdId, 4, i)
  {
    var fs := SequenceFields(cmd);
    hide Image, SubCmdValues;
    forall i | 0 <= i < 4 ensures Image(Class(SEQUENCE), VObj(fs))[i] == ByteOf(cmd.cmdId, 4, i) {
      IntegerStored(SEQUENCE, fs, 0, i);
    }
    IntegerStored(SEQUENCE, fs, 1, 0);
    assert SizeOf(Many(SUB_CMD, 5)) == 40 by {
      assert Times(5, 8) == 40;
    }
    GapIsZero(SEQUENCE, fs, 5);
    GapIsZero(SEQUENCE, fs, 6);
    GapIsZero(SEQUENCE, fs, 7);
  }

  lemma SequenceStep(cmd: Sequence, k: nat)
    requires WellLaid(Class(SEQUENCE)) && ObjConforms(SEQUENCE, SequenceFields(cmd)) && k < 5
    ensures StepAt(Image(Class(SEQUENCE), VObj(SequenceFields(cmd))), 8 + 8 * k, cmd.steps[k])
  {
    var fs := SequenceFields(cmd);
    StepsImage(cmd.steps, k);
    SequenceOffsets();
    assert fs[2] == VList(SubCmdValues(cmd.steps)) && LaidOut(SEQUENCE);
    hide Image, StepAt, SubCmdValues, PayloadOf, SequenceFields, ObjImage, LaidOut, WellLaid, ObjConforms, Conforms;
    ImageOfObject(SEQUENCE, fs);
    FieldStored(SEQUENCE, fs, 3, 2);
    StepMoved(ObjImage(SEQUENCE, fs, 3), 8, End(SEQUENCE, 3), 8 * k, cmd.steps[k]);
  }

  lemma ImageOfObject(l: Layout, vs: seq<Value>)
    requires WellLaid(Class(l)) && ObjConforms(l, vs)
    ensures Image(Class(l), VObj(vs)) == ObjImage(l, vs, |l.fields|)
  {
  }

  /**
    The fifty bytes of a motor sequence: 10, 0, the id in four bytes, the number of steps, three of padding, and
    five steps; all numbers least significant byte first.
   */
  lemma SequenceDatagram(cmd: Sequence)
    ensures var d := SendMsg(MotorSequence, VObj(SequenceFields(cmd)));
            && d.Some? && |d.value| == 50 && d.value[0] == 10 && d.value[1] == 0
            && (forall i | 0 <= i < 4 :: d.value[2 + i] == ByteOf(cmd.cmdId, 4, i))
            && d.value[6] == cmd.numSteps && d.value[7] == d.value[8] == d.value[9] == 0
            && forall k | 0 <= k < 5 :: StepAt(d.value, 10 + 8 * k, cmd.steps[k])
  {
    SequenceImage(cmd);
    hide Image, StepAt, Regular, SequenceFields, Frame, SendMsg, PayloadOf, ByteOf, ObjConforms, WireId;
    var b := Image(Class(SEQUENCE), VObj(SequenceFields(cmd)));
    SentFrame(MotorSequence, SequenceFields(cmd));
    SequenceHeader(b);
    var d := Frame(MotorSequence, b);
    FrameHeader(MotorSequence, b);
    assert d[2..|d|] == b;
    assert forall i | 0 <= i < 48 :: d[2 + i] == b[i];
    forall k | 0 <= k < 5 ensures StepAt(d, 10 + 8 * k, cmd.steps[k]) {
      StepMoved(d, 2, |d|, 8 + 8 * k, cmd.steps[k]);
    }
  }

  lemma SequenceHeader(b: seq<byte>)
    ensures var d := Frame(MotorSequence, b); |d| >= 2 && d[0] == 10 && d[1] == 0
  {
    HeaderBytes(MotorSequence, b);
    hide Frame;
  }

  // ---- a route and a region, byte by byte ----------------------------------------------------------------

  /** A field that holds bytes as they are: a float, or a byte array of its declared length. */
  lemma BytesStored(l: Layout, vs: seq<Value>, k: nat)
    requires LaidOut(l) && ObjConforms(l, vs) && k < |l.fields| && l.fields[k].ty.Floating?
    ensures Conforms(l.fields[k].ty, vs[k])
    ensures var o, size := l.fields[k].offset, l.fields[k].ty.size;
            o + size <= l.size && Image(Class(l), VObj(vs))[o..o + size] == vs[k].bits
  {
    FieldStored(l, vs, |l.fields|, k);
  }

  lemma PointImage(x: seq<byte>, y: seq<byte>)
    requires |x| == |y| == 4
    ensures WellLaid(Class(POINT)) && Conforms(Class(POINT), PointValue(x, y))
    ensures Image(Class(POINT), PointValue(x, y)) == x + y
  {
    PartsRegular();
    PointConforms(x, y);
    var vs := [VFloat(x), VFloat(y)];
    hide Image;
    BytesStored(POINT, vs, 0);
    BytesStored(POINT, vs, 1);
    var b := Image(Class(POINT), VObj(vs));
    assert |b| == 8 && b == b[0..4] + b[4..8];
  }

  lemma BoxImage(a: seq<byte>, b: seq<byte>, c: seq<byte>, d: seq<byte>)
    requires |a| == |b| == |c| == |d| == 4
    ensures var v := VObj([PointValue(a, b), PointValue(c, d)]);
            WellLaid(Class(BOX)) && Conforms(Class(BOX), v) && Image(Class(BOX), v) == a + b + c + d
  {
    NestedPartsRegular();
    BoxConforms(a, b, c, d);
    PointImage(a, b);
    PointImage(c, d);
    var vs := [PointValue(a, b), PointValue(c, d)];
    hide Image, PointValue;
    FieldStored(BOX, vs, 2, 0);
    FieldStored(BOX, vs, 2, 1);
    ImageOfObject(BOX, vs);
    var m := ObjImage(BOX, vs, 2);
    assert |m| == 16 && m == m[0..8] + m[8..16];
  }

  lemma RegionOffsets()
    ensures var fs := REGION.fields;
            && |fs| == 6 && REGION.size == 36
            && fs[0] == Field("region_id", U32, 0) && fs[1] == Field("bounds", Class(BOX), 4)
            && fs[2] == Field("ambient_temp_c", F32, 20) && fs[3] == Field("incline_percent", F32, 24)
            && fs[4] == Field("surface_friction", F32, 28) && fs[5] == Field("max_speed_rpm", F32, 32)
  {
  }

  /** The bytes of a region in memory: the id in four bytes, and eight floats. */
  predicate RegionAt(m: seq<byte>, e: Region, friction: seq<byte>, bits: real -> seq<byte>) {
    && |m| == 36 && (forall i | 0 <= i < 4 :: m[i] == ByteOf(e.id, 4, i))
    && m[4..20] == bits(e.minX) + bits(e.minY) + bits(e.maxX) + bits(e.maxY)
    && m[20..24] == bits(e.ambient) && m[24..28] == bits(e.incline)
    && m[28..32] == friction && m[32..36] == bits(e.maxSpeed)
  }

  lemma RegionImage(e: Region, friction: seq<byte>, bits: real -> seq<byte>, float: seq<byte> -> real)
    requires RegionFloats(e, bits, float) && |friction| == 4
    ensures var fs := RegionFields(e, friction, bits);
            && ObjConforms(REGION, fs) && Regular(Class(REGION)) && WellLaid(Class(REGION))
            && Conforms(Class(REGION), VObj(fs)) && RegionAt(Image(Class(REGION), VObj(fs)), e, friction, bits)
  {
    RegionConforms(e, friction, bits, float);
    EnvironmentRegular(EnvironmentData);
    RegularLaid(Class(REGION));
    RegionOffsets();
    hide Image, PointValue, Regular, PayloadOf, ByteOf;
    var fs := RegionFields(e, friction, bits);
    RegionBox(fs, bits(e.minX), bits(e.minY), bits(e.maxX), bits(e.maxY));
    hide ObjConforms, WellLaid, Conforms, RegionFields, RegionFloats;
    RegionNumbers(fs);
  }

  lemma RegionBox(fs: seq<Value>, a: seq<byte>, b: seq<byte>, c: seq<byte>, d: seq<byte>)
    requires WellLaid(Class(REGION)) && ObjConforms(REGION, fs)
    requires |a| == |b| == |c| == |d| == 4 && fs[1] == VObj([PointValue(a, b), PointValue(c, d)])
    ensures Image(Class(REGION), VObj(fs))[4..20] == a + b + c + d
  {
    BoxImage(a, b, c, d);
    hide Image, PointValue, Regular;
    FieldStored(REGION, fs, 6, 1);
    ImageOfObject(REGION, fs);
  }

  lemma RegionNumbers(fs: seq<Value>)
    requires WellLaid(Class(REGION)) && ObjConforms(REGION, fs) && Conforms(Class(REGION), VObj(fs))
    ensures |fs| == 6 && fs[0].VInt? && fs[2].VFloat? && fs[3].VFloat? && fs[4].VFloat? && fs[5].VFloat?
    ensures var m := Image(Class(REGION), VObj(fs));
            && |m| == 36 && (forall i | 0 <= i < 4 :: m[i] == ByteOf(fs[0].i, 4, i))
            && m[20..24] == fs[2].bits && m[24..28] == fs[3].bits && m[28..32] == fs[4].bits && m[32..36] == fs[5].bits
  {
    hide Image;
    assert Conforms(REGION.fields[0].ty, fs[0]);
    forall i | 0 <= i < 4 ensures Image(Class(REGION), VObj(fs))[i] == ByteOf(fs[0].i, 4, i) {
      IntegerStored(REGION, fs, 0, i);
    }
    BytesStored(REGION, fs, 2);
    BytesStored(REGION, fs, 3);
    BytesStored(REGION, fs, 4);
    BytesStored(REGION, fs, 5);
  }

  /** The 38 bytes of a region: 52, 0, the id in four bytes, and eight floats. */
  lemma RegionDatagram(e: Region, friction: seq<byte>, bits: real -> seq<byte>, float: seq<byte> -> real)
    requires RegionFloats(e, bits, float) && |friction| == 4
    ensures var d := SendMsg(EnvironmentData, VObj(RegionFields(e, friction, bits)));
            && d.Some? && |d.value| == 38 && d.value[0] == 52 && d.value[1] == 0
            && RegionAt(d.value[2..], e, friction, bits)
  {
    var fs := RegionFields(e, friction, bits);
    RegionImage(e, friction, bits, float);
    hide *;
    RegionHeader(fs);
    SentFrame(EnvironmentData, fs);
    FrameHeader(EnvironmentData, Image(Class(REGION), VObj(fs)));
  }

  lemma RouteOffsets()
    ensures var fs := ROUTE.fields;
            && |fs| == 7 && ROUTE.size == 180
            && fs[0] == Field("route_name", Chars(32), 0) && fs[1] == Field("mode", Enumeration(1), 32)
            && fs[2] == Field("p_gain", F32, 36) && fs[3] == Field("use_environment_tuning", Boolean, 40)
            && fs[4] == Field("route_transform", Many(VECTOR, 3), 44) && fs[5] == Field("num_nodes", U8, 80)
            && fs[6] == Field("route", Many(MANEUVER, 8), 84)
  {
  }

  /** A node in memory: two floats, the timeout in two bytes, and two of padding. */
  predicate NodeAt(m: seq<byte>, o: nat, n: Node, y: seq<byte>, bits: real -> seq<byte>) {
    && o + 12 <= |m| && m[o..o + 8] == bits(n.x) + y
    && m[o + 8] == ByteOf(n.timeoutMs, 2, 0) && m[o + 9] == ByteOf(n.timeoutMs, 2, 1)
    && m[o + 10] == m[o + 11] == 0
  }

  lemma NodeImage(n: Node, y: seq<byte>, bits: real -> seq<byte>)
    requires |bits(n.x)| == 4 && |y| == 4
    ensures WellLaid(Class(MANEUVER)) && Conforms(Class(MANEUVER), NodeValue(n, y, bits))
    ensures NodeAt(Image(Class(MANEUVER), NodeValue(n, y, bits)), 0, n, y, bits)
  {
    NestedPartsRegular();
    NodeConforms(n, y, bits);
    var vs := [PointValue(bits(n.x), y), VInt(n.timeoutMs)];
    hide Image, PointValue, Regular;
    NodePoint(vs, bits(n.x), y);
    NodeTimeout(vs);
    hide Conforms, WellLaid;
  }

  lemma NodePoint(vs: seq<Value>, x: seq<byte>, y: seq<byte>)
    requires |x| == |y| == 4 && WellLaid(Class(MANEUVER)) && ObjConforms(MANEUVER, vs) && vs[0] == PointValue(x, y)
    ensures Image(Class(MANEUVER), VObj(vs))[0..8] == x + y
  {
    PointImage(x, y);
    hide Image, PointValue;
    FieldStored(MANEUVER, vs, 2, 0);
    ImageOfObject(MANEUVER, vs);
  }

  lemma NodeTimeout(vs: seq<Value>)
    requires WellLaid(Class(MANEUVER)) && ObjConforms(MANEUVER, vs) && vs[1].VInt?
    ensures var m := Image(Class(MANEUVER), VObj(vs));
            && |m| == 12 && m[8] == ByteOf(vs[1].i, 2, 0) && m[9] == ByteOf(vs[1].i, 2, 1) && m[10] == m[11] == 0
  {
    hide Image;
    IntegerStored(MANEUVER, vs, 1, 0);
    IntegerStored(MANEUVER, vs, 1, 1);
    GapIsZero(MANEUVER, vs, 10);
    GapIsZero(MANEUVER, vs, 11);
  }

  lemma NodeMoved(b: seq<byte>, lo: nat, hi: nat, o: nat, n: Node, y: seq<byte>, bits: real -> seq<byte>)
    requires lo <= hi <= |b| && NodeAt(b[lo..hi], o, n, y, bits)
    ensures NodeAt(b, lo + o, n, y, bits)
  {
    var s := b[lo..hi];
    hide ByteOf;
    SubSlice(b, lo, hi, o, o + 8);
    assert s[o + 8] == b[lo + o + 8] && s[o + 9] == b[lo + o + 9];
    assert s[o + 10] == b[lo + o + 10] && s[o + 11] == b[lo + o + 11];
  }

  lemma NodesImage(route: seq<Node>, y: seq<byte>, bits: real -> seq<byte>, k: nat)
    requires |route| == 8 && |y| == 4 && k < 8 && forall i | 0 <= i < 8 :: |bits(route[i].x)| == 4
    ensures var t, v := Many(MANEUVER, 8), VList(NodeValues(route, y, bits));
            WellLaid(t) && Conforms(t, v) && NodeAt(Image(t, v), 12 * k, route[k], y, bits)
  {
    var elem, vs := Class(MANEUVER), NodeValues(route, y, bits);
    NodesConform(route, y, bits);
    NestedPartsRegular();
    NodeImage(route[k], y, bits);
    TwelveTimes(k);
    hide Image, NodeAt, NodeValue, Conforms, NodeValues, Exact;
    ImageOfNodes(vs);
    ElementStored(elem, vs, k);
    NodeMoved(ElemsImage(elem, vs), 12 * k, 12 * k + 12, 0, route[k], y, bits);
  }

  lemma TwelveTimes(k: nat)
    requires k < 8
    ensures Times(k, 12) == 12 * k && SizeOf(Class(MANEUVER)) == 12
  {
    assert Times(4, 12) == 48;
  }

  lemma ImageOfNodes(vs: seq<Value>)
    requires Regular(Class(MANEUVER)) && Conforms(Many(MANEUVER, 8), VList(vs))
    ensures WellLaid(Many(MANEUVER, 8)) && WellLaid(Class(MANEUVER))
    ensures forall i | 0 <= i < |vs| :: Conforms(Class(MANEUVER), vs[i])
    ensures Image(Many(MANEUVER, 8), VList(vs)) == ElemsImage(Class(MANEUVER), vs)
  {
    hide Image;
    ImageOfList(MANEUVER, 8, vs);
  }

  /**
    The bytes of a route in memory: the name, the mode, the gain, whether tuning is on, how many nodes, and eight
    nodes.
   */
  predicate RouteAt(m: seq<byte>, cmd: RoutePlan, name: seq<byte>, y: seq<byte>, bits: real -> seq<byte>) {
    && |m| == 180 && (forall i | 0 <= i < 32 :: m[i] == if i < |name| then name[i] else 0)
    && m[32] == ModeValue(cmd.mode) && m[36..40] == bits(cmd.gain)
    && m[40] == (if cmd.tuning then 1 else 0) && m[80] == cmd.numNodes
    && forall k | 0 <= k < 8 :: NodeAt(m, 84 + 12 * k, cmd.route[k], y, bits)
  }

  lemma RouteKinds(fs: seq<Value>)
    requires ObjConforms(ROUTE, fs)
    ensures |fs| == 7 && fs[0].VBytes? && fs[1].VInt? && fs[2].VFloat? && fs[3].VBool? && fs[5].VInt?
  {
    assert IsBytes(Chars(32));
    assert Conforms(ROUTE.fields[0].ty, fs[0]) && Conforms(ROUTE.fields[1].ty, fs[1]);
    assert Conforms(ROUTE.fields[2].ty, fs[2]);
    assert Conforms(ROUTE.fields[3].ty, fs[3]) && Conforms(ROUTE.fields[5].ty, fs[5]);
  }

  /** An unsigned byte is stored as it is. */
  lemma ByteStored(l: Layout, vs: seq<Value>, k: nat)
    requires LaidOut(l) && ObjConforms(l, vs) && k < |l.fields|
    requires l.fields[k].ty == U8 || l.fields[k].ty == Enumeration(1)
    ensures l.fields[k].offset < l.size
    ensures vs[k].VInt? && Image(Class(l), VObj(vs))[l.fields[k].offset] == vs[k].i
  {
    assert Pow256(0) == 1 && Pow256(1) == 256;
    IntegerStored(l, vs, k, 0);
    hide Image;
  }

  lemma RouteNumbers(fs: seq<Value>)
    requires WellLaid(Class(ROUTE)) && ObjConforms(ROUTE, fs) && Conforms(Class(ROUTE), VObj(fs))
    ensures |fs| == 7 && fs[0].VBytes? && fs[1].VInt? && fs[2].VFloat? && fs[3].VBool? && fs[5].VInt?
    ensures var m := Image(Class(ROUTE), VObj(fs));
            |m| == 180 && m[32] == fs[1].i && m[36..40] == fs[2].bits && m[80] == fs[5].i
  {
    RouteOffsets();
    RouteKinds(fs);
    assert LaidOut(ROUTE);
    hide Image, PayloadOf, Many, Chars, ObjConforms, LaidOut, Conforms;
    ByteStored(ROUTE, fs, 1);
    ByteStored(ROUTE, fs, 5);
    BytesStored(ROUTE, fs, 2);
  }

  lemma RouteText(fs: seq<Value>)
    requires WellLaid(Class(ROUTE)) && ObjConforms(ROUTE, fs) && Conforms(Class(ROUTE), VObj(fs))
    requires |fs| == 7 && fs[0].VBytes? && fs[3].VBool?
    ensures var m := Image(Class(ROUTE), VObj(fs));
            && |m| == 180 && m[40] == (if fs[3].b then 1 else 0)
            && forall i | 0 <= i < 32 :: m[i] == if i < |fs[0].data| then fs[0].data[i] else 0
  {
    RouteOffsets();
    ScalarsRegular(32);
    hide PayloadOf, Many;
    FieldStored(ROUTE, fs, 7, 0);
    FieldStored(ROUTE, fs, 7, 3);
    ImageOfObject(ROUTE, fs);
    assert Image(Chars(32), fs[0]) == Fit(32, fs[0].data);
    var m := ObjImage(ROUTE, fs, 7);
    assert m[40] == m[40..41][0];
    FilledText(m, fs[0].data);
  }

  lemma FilledText(m: seq<byte>, text: seq<byte>)
    requires |m| >= 32 && m[0..32] == Fit(32, text)
    ensures forall i | 0 <= i < 32 :: m[i] == if i < |text| then text[i] else 0
  {
    forall i | 0 <= i < 32 ensures m[i] == if i < |text| then text[i] else 0 {
      FitByte(32, text, i);
      assert m[i] == m[0..32][i];
    }
  }

  lemma RouteNodes(cmd: RoutePlan, fs: seq<Value>, y: seq<byte>, bits: real -> seq<byte>, k: nat)
    requires WellLaid(Class(ROUTE)) && ObjConforms(ROUTE, fs) && Conforms(Class(ROUTE), VObj(fs))
    requires |fs| == 7 && fs[6] == VList(NodeValues(cmd.route, y, bits)) && |y| == 4 && k < 8
    requires forall i | 0 <= i < 8 :: |bits(cmd.route[i].x)| == 4
    ensures NodeAt(Image(Class(ROUTE), VObj(fs)), 84 + 12 * k, cmd.route[k], y, bits)
  {
    RouteOffsets();
    NodesImage(cmd.route, y, bits, k);
    assert LaidOut(ROUTE);
    hide Image, NodeAt, NodeValues, PayloadOf, ObjImage, LaidOut, WellLaid, ObjConforms, Conforms;
    ImageOfObject(ROUTE, fs);
    FieldStored(ROUTE, fs, 7, 6);
    NodeMoved(ObjImage(ROUTE, fs, 7), 84, End(ROUTE, 7), 12 * k, cmd.route[k], y, bits);
  }

  lemma RouteImage(cmd: RoutePlan, name: seq<byte>, axes: Value, y: seq<byte>, bits: real -> seq<byte>,
                   float: seq<byte> -> real)
    requires Floats(cmd, bits, float) && |y| == 4 && Conforms(Many(VECTOR, 3), axes)
    ensures var fs := RouteFields(cmd, name, axes, y, bits);
            && ObjConforms(ROUTE, fs) && Regular(Class(ROUTE)) && WellLaid(Class(ROUTE))
            && Conforms(Class(ROUTE), VObj(fs)) && RouteAt(Image(Class(ROUTE), VObj(fs)), cmd, name, y, bits)
  {
    var fs := RouteFields(cmd, name, axes, y, bits);
    RouteConforms(cmd, name, axes, y, bits, float);
    RouteRead(cmd, name, axes, y, bits, float);
    RouteRegular();
    hide *;
    RegularLaid(Class(ROUTE));
    FloatBits(cmd, bits, float);
    RouteLies(cmd, name, axes, y, bits);
  }

  lemma FloatBits(cmd: RoutePlan, bits: real -> seq<byte>, float: seq<byte> -> real)
    requires Floats(cmd, bits, float)
    ensures forall i | 0 <= i < 8 :: |bits(cmd.route[i].x)| == 4
  {
    assert forall i | 0 <= i < 8 :: Float(cmd.route[i].x, bits, float);
  }

  lemma RouteLies(cmd: RoutePlan, name: seq<byte>, axes: Value, y: seq<byte>, bits: real -> seq<byte>)
    requires |y| == 4 && forall i | 0 <= i < 8 :: |bits(cmd.route[i].x)| == 4
    requires var fs := RouteFields(cmd, name, axes, y, bits);
             WellLaid(Class(ROUTE)) && ObjConforms(ROUTE, fs) && Conforms(Class(ROUTE), VObj(fs))
    ensures RouteAt(Image(Class(ROUTE), VObj(RouteFields(cmd, name, axes, y, bits))), cmd, name, y, bits)
  {
    var fs := RouteFields(cmd, name, axes, y, bits);
    hide Image, WellLaid, Conforms, ObjConforms, NodeValues, NodeAt, PayloadOf;
    RouteNumbers(fs);
    RouteText(fs);
    forall k | 0 <= k < 8 ensures NodeAt(Image(Class(ROUTE), VObj(fs)), 84 + 12 * k, cmd.route[k], y, bits) {
      RouteNodes(cmd, fs, y, bits, k);
    }
  }

  /** The 182 bytes of a route command: 60, 0, and the route. */
  lemma RouteDatagram(cmd: RoutePlan, name: seq<byte>, axes: Value, y: seq<byte>, bits: real -> seq<byte>,
                      float: seq<byte> -> real)
    requires Floats(cmd, bits, float) && |y| == 4 && Conforms(Many(VECTOR, 3), axes)
    ensures var d := SendMsg(AutoDriveCommand, VObj(RouteFields(cmd, name, axes, y, bits)));
            && d.Some? && |d.value| == 182 && d.value[0] == 60 && d.value[1] == 0
            && RouteAt(d.value[2..], cmd, name, y, bits)
  {
    var fs := RouteFields(cmd, name, axes, y, bits);
    RouteImage(cmd, name, axes, y, bits, float);
    hide *;
    CommandHeader(fs);
    SentFrame(AutoDriveCommand, fs);
    FrameHeader(AutoDriveCommand, Image(Class(ROUTE), VObj(fs)));
  }
}
