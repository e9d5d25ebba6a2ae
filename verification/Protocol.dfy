/** The payload types of the application: their C++ layouts, message ids on the wire, and generated formats. */
module Protocol {
  import opened Wrappers
  import opened Bytes
  import opened Messages
  import opened StructFormat
  import opened Schema
  import opened Generator
  import opened PackProofs
  import opened UnpackProofs

  const U8 := Integer(1, false)
  const U16 := Integer(2, false)
  const U32 := Integer(4, false)
  const I16 := Integer(2, true)
  const F32 := Floating(4)

  function Chars(n: nat): CType { Array(Integer(1, true), n, true) }

  /** std::array of structs */
  function Many(l: Layout, n: nat): CType { Array(Class(l), n, false) }

  const SUB_CMD := Layout("MotorSubCmd", [Field("speed_rpm", I16, 0), Field("duration_us", U32, 4)], 8)
  const POINT := Layout("Point2D", [Field("x", F32, 0), Field("y", F32, 4)], 8)
  const BOX := Layout("BoundingBox2D", [Field("min_pt", Class(POINT), 0), Field("max_pt", Class(POINT), 8)], 16)
  const VECTOR := Layout("Vector3", [Field("x", F32, 0), Field("y", F32, 4), Field("z", F32, 8)], 12)
  const MANEUVER := Layout("ManeuverNode", [Field("target_pos", Class(POINT), 0), Field("timeout_ms", U16, 8)], 12)
  const STATS := Layout("ManeuverStats",
    [Field("initial_energy_mj", F32, 0), Field("final_energy_mj", F32, 4),
     Field("energy_per_meter_mj", F32, 8), Field("total_energy_used_mj", F32, 12)], 16)
  const ENV_ID := Layout("EnvId", [Field("id", U32, 0)], 4)
  const SHARED_PTR := Layout("std__shared_ptr_const_EnvironmentPayload", [], 16)

  function Flag(name: string): Layout { Layout(name, [Field("reserved", U8, 0)], 1) }

  function PayloadOf(id: MsgId): Layout {
    match id
    case Log => Layout("LogPayload",
      [Field("text", Chars(255), 0), Field("severity", Enumeration(1), 255), Field("component", Chars(32), 256)], 288)
    case PhysicsTick => Layout("PhysicsTickPayload",
      [Field("cmd_id", U32, 0), Field("speed_rpm", I16, 4), Field("dt_us", U32, 8)], 12)
    case StateRequest => Flag("StateRequestPayload")
    case StateData => Layout("StatePayload", [Field("state", Enumeration(1), 0)], 1)
    case MotorSequence => Layout("MotorSequencePayloadTemplate_5",
      [Field("cmd_id", U32, 0), Field("num_steps", U8, 4), Field("steps", Many(SUB_CMD, 5), 8)], 48)
    case MotorStatus => Layout("MotorStatusPayload",
      [Field("cmd_id", U32, 0), Field("speed_rpm", I16, 4), Field("is_active", Boolean, 6)], 8)
    case KinematicsRequest => Flag("KinematicsRequestPayload")
    case KinematicsData => Layout("KinematicsPayload",
      [Field("cmd_id", U32, 0), Field("elapsed_us", U32, 4), Field("position_m", F32, 8), Field("speed_mps", F32, 12)],
      16)
    case PowerRequest => Flag("PowerRequestPayload")
    case PowerData => Layout("PowerPayload",
      [Field("cmd_id", U32, 0), Field("voltage_v", F32, 4), Field("current_a", F32, 8),
       Field("state_of_charge", U8, 12)], 16)
    case ThermalRequest => Flag("ThermalRequestPayload")
    case ThermalData => Layout("ThermalPayload", [Field("motor_temp_c", F32, 0), Field("battery_temp_c", F32, 4)], 8)
    case EnvironmentAck => Layout("EnvironmentAckPayload", [Field("region_id", U32, 0)], 4)
    case EnvironmentRequest => Layout("EnvironmentRequestPayload", [Field("target_location", Class(POINT), 0)], 8)
    case EnvironmentData => Layout("EnvironmentPayload",
      [Field("region_id", U32, 0), Field("bounds", Class(BOX), 4), Field("ambient_temp_c", F32, 20),
       Field("incline_percent", F32, 24), Field("surface_friction", F32, 28), Field("max_speed_rpm", F32, 32)], 36)
    case AutoDriveCommand => Layout("AutoDriveCommandTemplate_8",
      [Field("route_name", Chars(32), 0), Field("mode", Enumeration(1), 32), Field("p_gain", F32, 36),
       Field("use_environment_tuning", Boolean, 40), Field("route_transform", Many(VECTOR, 3), 44),
       Field("num_nodes", U8, 80), Field("route", Many(MANEUVER, 8), 84)], 180)
    case AutoDriveStatus => Layout("AutoDriveStatusTemplate_8__4",
      [Field("cmd_id", U32, 0), Field("current_node_idx", U8, 4), Field("route_complete", Boolean, 5),
       Field("num_stats", U8, 6),
       Field("node_stats", Many(STATS, 8), 8), Field("num_environments_used", U8, 136),
       Field("environment_ids", Many(ENV_ID, 4), 140)], 156)
    case InternalEnvRequest => Layout("InternalEnvRequestPayload", [Field("x", F32, 0), Field("y", F32, 4)], 8)
    case InternalEnvData => Layout("InternalEnvDataPayload", [Field("ptr", Class(SHARED_PTR), 0)], 16)
  }

  function WireId(id: MsgId): uint16 {
    match id
    case Log => 0
    case PhysicsTick => 1
    case StateRequest => 2
    case StateData => 3
    case MotorSequence => 10
    case MotorStatus => 11
    case KinematicsRequest => 20
    case KinematicsData => 21
    case PowerRequest => 30
    case PowerData => 31
    case ThermalRequest => 40
    case ThermalData => 41
    case EnvironmentAck => 50
    case EnvironmentRequest => 51
    case EnvironmentData => 52
    case AutoDriveCommand => 60
    case AutoDriveStatus => 61
    case InternalEnvRequest => 1000
    case InternalEnvData => 1001
  }

  /** The enumerator of a wire value, if there is one. */
  function FromWire(raw: nat): (id: Option<MsgId>)
    ensures id.Some? ==> WireId(id.value) == raw
  {
    match raw
    case 0 => Some(Log)
    case 1 => Some(PhysicsTick)
    case 2 => Some(StateRequest)
    case 3 => Some(StateData)
    case 10 => Some(MotorSequence)
    case 11 => Some(MotorStatus)
    case 20 => Some(KinematicsRequest)
    case 21 => Some(KinematicsData)
    case 30 => Some(PowerRequest)
    case 31 => Some(PowerData)
    case 40 => Some(ThermalRequest)
    case 41 => Some(ThermalData)
    case 50 => Some(EnvironmentAck)
    case 51 => Some(EnvironmentRequest)
    case 52 => Some(EnvironmentData)
    case 60 => Some(AutoDriveCommand)
    case 61 => Some(AutoDriveStatus)
    case 1000 => Some(InternalEnvRequest)
    case 1001 => Some(InternalEnvData)
    case _ => None
  }

  lemma FromWireId(id: MsgId)
    ensures FromWire(WireId(id)) == Some(id)
  {
  }

  // ---- which payloads can go over the wire -----------------------------------------------------------

  predicate AllRegular(l: Layout) {
    forall k | 0 <= k < |l.fields| :: Regular(l.fields[k].ty)
  }

  predicate NoBareGaps(l: Layout) {
    forall j | 0 <= j <= |l.fields| :: !BareGap(l, j)
  }

  lemma Composed(l: Layout)
    requires l.fields != [] && Ordered(l) && NoBareGaps(l) && AllRegular(l)
    ensures Regular(Class(l))
  {
    hide BareGap;
    forall k | 0 <= k < |l.fields|
      ensures WellLaid(l.fields[k].ty) && Supported(l.fields[k].ty) && Clean(l.fields[k].ty)
    {
      assert Regular(l.fields[k].ty);
    }
  }

  lemma ScalarsRegular(n: nat)
    ensures Regular(U8) && Regular(U16) && Regular(U32) && Regular(I16) && Regular(F32) && Regular(Enumeration(1))
            && Regular(Boolean)
    ensures n > 0 ==> Regular(Chars(n)) && IsBytes(Chars(n)) && SizeOf(Chars(n)) == n
  {
  }

  lemma ManyRegular(l: Layout, n: nat)
    requires Regular(Class(l)) && n > 0
    ensures Regular(Many(l, n)) && SizeOf(Many(l, n)) == Times(n, l.size)
  {
  }

  lemma PartsRegular()
    ensures Regular(Class(SUB_CMD)) && Regular(Class(POINT)) && Regular(Class(VECTOR)) && Regular(Class(STATS))
            && Regular(Class(ENV_ID))
  {
    ScalarsRegular(1);
    hide Regular;
    Composed(SUB_CMD);
    Composed(POINT);
    Composed(VECTOR);
    Composed(STATS);
    Composed(ENV_ID);
  }

  lemma NestedPartsRegular()
    ensures Regular(Class(BOX)) && Regular(Class(MANEUVER))
  {
    ScalarsRegular(1);
    PartsRegular();
    hide Regular;
    Composed(BOX);
    Composed(MANEUVER);
  }

  lemma RequestsRegular(id: MsgId)
    requires id in {StateRequest, KinematicsRequest, PowerRequest, ThermalRequest, StateData, EnvironmentAck}
    ensures Regular(Class(PayloadOf(id)))
  {
    ScalarsRegular(1);
    hide Regular;
    Composed(PayloadOf(id));
  }

  lemma TickRegular(id: MsgId)
    requires id in {PhysicsTick, MotorStatus, ThermalData, InternalEnvRequest}
    ensures Regular(Class(PayloadOf(id)))
  {
    ScalarsRegular(1);
    hide Regular;
    Composed(PayloadOf(id));
  }

  lemma DataRegular(id: MsgId)
    requires id in {KinematicsData, PowerData}
    ensures Regular(Class(PayloadOf(id)))
  {
    ScalarsRegular(1);
    hide Regular;
    Composed(PayloadOf(id));
  }

  lemma LogRegular()
    ensures Regular(Class(PayloadOf(Log)))
  {
    ScalarsRegular(255);
    ScalarsRegular(32);
    hide Regular, Chars;
    Composed(PayloadOf(Log));
  }

  lemma EnvironmentRegular(id: MsgId)
    requires id in {EnvironmentRequest, EnvironmentData}
    ensures Regular(Class(PayloadOf(id)))
  {
    ScalarsRegular(1);
    PartsRegular();
    NestedPartsRegular();
    hide Regular;
    Composed(PayloadOf(id));
  }

  lemma SequenceRegular()
    ensures Regular(Class(PayloadOf(MotorSequence)))
  {
    ScalarsRegular(1);
    PartsRegular();
    ManyRegular(SUB_CMD, 5);
    assert Times(5, 8) == 40;
    hide Regular, Many;
    Composed(PayloadOf(MotorSequence));
  }

  lemma RouteLaid()
    ensures Ordered(PayloadOf(AutoDriveCommand)) && NoBareGaps(PayloadOf(AutoDriveCommand))
  {
    assert SizeOf(Many(VECTOR, 3)) == 36 && SizeOf(Many(MANEUVER, 8)) == 96 && SizeOf(Chars(32)) == 32 by {
      assert Times(3, 12) == 36 && Times(8, 12) == 96;
    }
    assert Nested(Many(VECTOR, 3)) && Nested(Many(MANEUVER, 8));
    hide Many, Chars;
  }

  lemma RouteFields()
    ensures AllRegular(PayloadOf(AutoDriveCommand))
  {
    hide Regular, Many, Chars, SizeOf, IsBytes;
    ScalarsRegular(32);
    PartsRegular();
    NestedPartsRegular();
    ManyRegular(VECTOR, 3);
    ManyRegular(MANEUVER, 8);
  }

  lemma RouteRegular()
    ensures Regular(Class(PayloadOf(AutoDriveCommand)))
  {
    RouteLaid();
    RouteFields();
    hide AllRegular, Ordered, NoBareGaps, Regular;
    Composed(PayloadOf(AutoDriveCommand));
  }

  lemma ReportLaid()
    ensures Ordered(PayloadOf(AutoDriveStatus)) && NoBareGaps(PayloadOf(AutoDriveStatus))
  {
    assert SizeOf(Many(STATS, 8)) == 128 && SizeOf(Many(ENV_ID, 4)) == 16 by {
      assert Times(8, 16) == 128 && Times(4, 4) == 16;
    }
    assert Nested(Many(STATS, 8)) && Nested(Many(ENV_ID, 4));
    hide Many;
  }

  lemma ReportFields()
    ensures AllRegular(PayloadOf(AutoDriveStatus))
  {
    ScalarsRegular(1);
    PartsRegular();
    ManyRegular(STATS, 8);
    ManyRegular(ENV_ID, 4);
    hide Regular, Many;
  }

  lemma ReportRegular()
    ensures Regular(Class(PayloadOf(AutoDriveStatus)))
  {
    ReportLaid();
    ReportFields();
    hide AllRegular, Ordered, NoBareGaps, Regular;
    Composed(PayloadOf(AutoDriveStatus));
  }

  /** Every payload can go over the wire, except the one that holds a shared pointer. */
  lemma PayloadsRegular(id: MsgId)
    ensures Regular(Class(PayloadOf(id))) <==> id != InternalEnvData
  {
    if id == InternalEnvData {
      assert !Supported(PayloadOf(id).fields[0].ty);
    } else {
      hide Regular, PayloadOf;
      match id
      case Log => LogRegular();
      case EnvironmentRequest => EnvironmentRegular(id);
      case EnvironmentData => EnvironmentRegular(id);
      case MotorSequence => SequenceRegular();
      case AutoDriveCommand => RouteRegular();
      case AutoDriveStatus => ReportRegular();
      case KinematicsData => DataRegular(id);
      case PowerData => DataRegular(id);
      case PhysicsTick => TickRegular(id);
      case MotorStatus => TickRegular(id);
      case ThermalData => TickRegular(id);
      case InternalEnvRequest => TickRegular(id);
      case _ => RequestsRegular(id);
    }
  }

  // ---- the formats the repository's bindings contain ---------------------------------------------------

  /** Two more letters of a format text. */
  lemma Text(items: seq<Item>, item: Item, text: string)
    requires Format(items) == text
    ensures Format(items + [item]) == text + RenderItem(item)
  {
    FormatSnoc(items, item);
  }

  lemma SubCmdText()
    ensures Format([Code('h'), Pad(2), Code('I')]) == "<h2xI"
  {
    assert Format([]) == "<";
    Text([], Code('h'), "<");
    Text([Code('h')], Pad(2), "<h");
    Text([Code('h'), Pad(2)], Code('I'), "<h2x");
    assert [] + [Code('h')] == [Code('h')] && [Code('h')] + [Pad(2)] == [Code('h'), Pad(2)]
        && [Code('h'), Pad(2)] + [Code('I')] == [Code('h'), Pad(2), Code('I')];
  }

  /** "<h2xI" for both directions. */
  lemma SubCmdBindings()
    ensures ClassOf(SUB_CMD).pack == [PackRun("<h2xI", [0, 1])]
            && ClassOf(SUB_CMD).unpack == [UnpackRun([0, 1], "<h2xI")]
  {
    var items := [Code('h'), Pad(2), Code('I')];
    SubCmdText();
    hide RenderAll, Format, Decimal;
    NextField(SUB_CMD.fields, 0, START);
    NextField(SUB_CMD.fields, 1, Gen([Code('h')], [0], [], [], 2));
    assert Prefix(SUB_CMD.fields, 2) == Gen(items, [0, 1], [], [], 8);
  }

  lemma SequenceText()
    ensures Format([Code('I'), Code('B'), Pad(3)]) == "<IB3x"
  {
    assert Format([]) == "<";
    Text([], Code('I'), "<");
    Text([Code('I')], Code('B'), "<I");
    Text([Code('I'), Code('B')], Pad(3), "<IB");
    assert [] + [Code('I')] == [Code('I')] && [Code('I')] + [Code('B')] == [Code('I'), Code('B')]
        && [Code('I'), Code('B')] + [Pad(3)] == [Code('I'), Code('B'), Pad(3)];
  }

  const SEQUENCE := PayloadOf(MotorSequence)

  lemma SequenceRun()
    ensures Prefix(SEQUENCE.fields, 2) == Gen([Code('I'), Code('B')], [0, 1], [], [], 5)
  {
    NextField(SEQUENCE.fields, 0, START);
    NextField(SEQUENCE.fields, 1, Gen([Code('I')], [0], [], [], 4));
  }

  lemma AddSteps(sub: Option<ClassDef>)
    ensures AddField(Gen([Code('I'), Code('B')], [0, 1], [], [], 5), 2, Field("steps", Many(SUB_CMD, 5), 8), sub)
         == Gen([], [], [PackRun("<IB3x", [0, 1]), PackEach(2, sub, false)],
                [UnpackRun([0, 1], "<IB3x"), UnpackEach(2, sub, 5)], 48)
  {
    SequenceText();
    assert [Code('I'), Code('B')] + [Pad(3)] == [Code('I'), Code('B'), Pad(3)];
    assert SizeOf(Many(SUB_CMD, 5)) == 40 by {
      assert Times(5, 8) == 40;
    }
    hide Format, SizeOf;
  }

  lemma SequenceArray()
    ensures var sub := Some(ClassOf(SUB_CMD));
            Prefix(SEQUENCE.fields, 3) == Gen([], [], [PackRun("<IB3x", [0, 1]), PackEach(2, sub, false)],
                                              [UnpackRun([0, 1], "<IB3x"), UnpackEach(2, sub, 5)], 48)
  {
    SequenceRun();
    NextField(SEQUENCE.fields, 2, Gen([Code('I'), Code('B')], [0, 1], [], [], 5));
    AddSteps(Some(ClassOf(SUB_CMD)));
    assert SubClass(Many(SUB_CMD, 5)) == Some(ClassOf(SUB_CMD));
    hide ClassOf, Prefix, AddField, SubClass;
  }

  /** "<IB3x" flushed before the array, and five sub-commands one by one. */
  lemma SequenceBindings()
    ensures var c := ClassOf(SEQUENCE);
            var sub := Some(ClassOf(SUB_CMD));
            && c.pack == [PackRun("<IB3x", [0, 1]), PackEach(2, sub, false)]
            && c.unpack == [UnpackRun([0, 1], "<IB3x"), UnpackEach(2, sub, 5)]
  {
    SequenceArray();
    hide Prefix;
  }

  lemma ManeuverText()
    ensures Format([Code('H'), Pad(2)]) == "<H2x"
  {
    assert Format([]) == "<";
    Text([], Code('H'), "<");
    Text([Code('H')], Pad(2), "<H");
    assert [] + [Code('H')] == [Code('H')] && [Code('H')] + [Pad(2)] == [Code('H'), Pad(2)];
  }

  /** A nested struct first, then "<H2x" with the trailing padding. */
  lemma ManeuverBindings()
    ensures var c := ClassOf(MANEUVER);
            && c.pack == [PackSub(0, ClassOf(POINT)), PackRun("<H2x", [1])]
            && c.unpack == [UnpackSub(0, ClassOf(POINT)), UnpackRun([1], "<H2x")]
  {
    var l := MANEUVER;
    ManeuverText();
    assert [Code('H')] + [Pad(2)] == [Code('H'), Pad(2)];
    hide RenderAll, Format, Decimal;
    NextField(l.fields, 0, START);
    var point := ClassOf(POINT);
    NextField(l.fields, 1, Gen([], [], [PackSub(0, point)], [UnpackSub(0, point)], 8));
    assert Prefix(l.fields, 2) == Gen([Code('H')], [1], [PackSub(0, point)], [UnpackSub(0, point)], 10);
  }

  lemma KinematicsText()
    ensures Format([Code('I'), Code('I'), Code('f'), Code('f')]) == "<IIff"
  {
    assert Format([]) == "<";
    Text([], Code('I'), "<");
    assert [] + [Code('I')] == [Code('I')];
    Text([Code('I')], Code('I'), "<I");
    assert [Code('I')] + [Code('I')] == [Code('I'), Code('I')];
    Text([Code('I'), Code('I')], Code('f'), "<II");
    assert [Code('I'), Code('I')] + [Code('f')] == [Code('I'), Code('I'), Code('f')];
    Text([Code('I'), Code('I'), Code('f')], Code('f'), "<IIf");
    assert [Code('I'), Code('I'), Code('f')] + [Code('f')] == [Code('I'), Code('I'), Code('f'), Code('f')];
  }

  /** "<IIff" for both directions. */
  lemma KinematicsBindings()
    ensures var c := ClassOf(PayloadOf(KinematicsData));
            c.pack == [PackRun("<IIff", [0, 1, 2, 3])] && c.unpack == [UnpackRun([0, 1, 2, 3], "<IIff")]
  {
    var fs := PayloadOf(KinematicsData).fields;
    KinematicsText();
    hide RenderAll, Format, Decimal;
    NextField(fs, 0, START);
    NextField(fs, 1, Gen([Code('I')], [0], [], [], 4));
    NextField(fs, 2, Gen([Code('I'), Code('I')], [0, 1], [], [], 8));
    NextField(fs, 3, Gen([Code('I'), Code('I'), Code('f')], [0, 1, 2], [], [], 12));
    assert Prefix(fs, 4) == Gen([Code('I'), Code('I'), Code('f'), Code('f')], [0, 1, 2, 3], [], [], 16);
  }

  lemma StatusText()
    ensures Format([Code('I'), Code('h'), Code('?'), Pad(1)]) == "<Ih?1x"
  {
    assert Format([]) == "<";
    Text([], Code('I'), "<");
    assert [] + [Code('I')] == [Code('I')];
    Text([Code('I')], Code('h'), "<I");
    assert [Code('I')] + [Code('h')] == [Code('I'), Code('h')];
    Text([Code('I'), Code('h')], Code('?'), "<Ih");
    assert [Code('I'), Code('h')] + [Code('?')] == [Code('I'), Code('h'), Code('?')];
    Text([Code('I'), Code('h'), Code('?')], Pad(1), "<Ih?");
    assert [Code('I'), Code('h'), Code('?')] + [Pad(1)] == [Code('I'), Code('h'), Code('?'), Pad(1)];
  }

  /** "<Ih?1x" for both directions: the trailing padding is written out. */
  lemma StatusBindings()
    ensures var c := ClassOf(PayloadOf(MotorStatus));
            c.pack == [PackRun("<Ih?1x", [0, 1, 2])] && c.unpack == [UnpackRun([0, 1, 2], "<Ih?1x")]
  {
    var fs := PayloadOf(MotorStatus).fields;
    StatusText();
    hide RenderAll, Format, Decimal;
    NextField(fs, 0, START);
    NextField(fs, 1, Gen([Code('I')], [0], [], [], 4));
    NextField(fs, 2, Gen([Code('I'), Code('h')], [0, 1], [], [], 6));
    var g := Prefix(fs, 3);
    assert g == Gen([Code('I'), Code('h'), Code('?')], [0, 1, 2], [], [], 7);
    assert g.items + [Pad(1)] == [Code('I'), Code('h'), Code('?'), Pad(1)];
  }

  lemma LogText()
    ensures Format([Raw(255), Code('B'), Raw(32)]) == "<255sB32s"
  {
    assert Format([]) == "<";
    assert Decimal(2) == "2" && Decimal(25) == "25" && Decimal(255) == "255";
    assert Decimal(3) == "3" && Decimal(32) == "32";
    Text([], Raw(255), "<");
    Text([Raw(255)], Code('B'), "<255s");
    Text([Raw(255), Code('B')], Raw(32), "<255sB");
    assert [] + [Raw(255)] == [Raw(255)] && [Raw(255)] + [Code('B')] == [Raw(255), Code('B')]
        && [Raw(255), Code('B')] + [Raw(32)] == [Raw(255), Code('B'), Raw(32)];
  }

  /** "<255sB32s" for both directions. */
  lemma LogBindings()
    ensures var c := ClassOf(PayloadOf(Log));
            c.pack == [PackRun("<255sB32s", [0, 1, 2])] && c.unpack == [UnpackRun([0, 1, 2], "<255sB32s")]
  {
    var fs := PayloadOf(Log).fields;
    LogText();
    ScalarsRegular(255);
    ScalarsRegular(32);
    hide RenderAll, Format, Decimal, Regular;
    NextField(fs, 0, START);
    NextField(fs, 1, Gen([Raw(255)], [0], [], [], 255));
    NextField(fs, 2, Gen([Raw(255), Code('B')], [0, 1], [], [], 256));
    assert Prefix(fs, 3) == Gen([Raw(255), Code('B'), Raw(32)], [0, 1, 2], [], [], 288);
  }

  /** The letters of Python's struct module and their standard sizes, for the types they stand for. */
  lemma StandardLetters()
    ensures FormatChar(Integer(1, true)) == 'b' && CodeSize('b') == 1 && FormatChar(Integer(1, false)) == 'B'
    ensures FormatChar(Integer(2, true)) == 'h' && CodeSize('h') == 2 && FormatChar(Integer(2, false)) == 'H'
    ensures FormatChar(Integer(4, true)) == 'i' && CodeSize('i') == 4 && FormatChar(Integer(4, false)) == 'I'
    ensures FormatChar(Integer(8, true)) == 'q' && CodeSize('q') == 8 && FormatChar(Integer(8, false)) == 'Q'
    ensures FormatChar(Floating(4)) == 'f' && CodeSize('f') == 4 && FormatChar(Floating(8)) == 'd' && CodeSize('d') == 8
    ensures CodeSize('B') == 1 && CodeSize('H') == 2 && CodeSize('I') == 4 && CodeSize('Q') == 8 && CodeSize('?') == 1
    ensures FormatChar(Enumeration(1)) == 'B' && FormatChar(Enumeration(2)) == 'H' && FormatChar(Enumeration(8)) == 'Q'
    ensures FormatChar(Boolean) == '?'
  {
  }
}
