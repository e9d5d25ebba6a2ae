/** The generator's main program on the application's types: 27 classes, once each, nested ones first. */
module Bindings {
  import opened Wrappers
  import opened Messages
  import opened Schema
  import opened Generator
  import opened Emission
  import opened Protocol

  /** Every struct type the bindings need. */
  datatype Part =
    | Payload(id: MsgId)
    | NestedSubCmd | NestedPoint | NestedBox | NestedVector
    | NestedManeuver | NestedStats | NestedEnvId | NestedSharedPtr

  function LayoutOf(p: Part): Layout {
    match p
    case Payload(id) => PayloadOf(id)
    case NestedSubCmd => SUB_CMD
    case NestedPoint => POINT
    case NestedBox => BOX
    case NestedVector => VECTOR
    case NestedManeuver => MANEUVER
    case NestedStats => STATS
    case NestedEnvId => ENV_ID
    case NestedSharedPtr => SHARED_PTR
  }

  ghost predicate Known(l: Layout) { exists p: Part :: LayoutOf(p) == l }

  /** MotorSubCmd, then the payloads in the order of the enumeration. */
  const IDS := [Log, PhysicsTick, StateRequest, StateData, MotorSequence, MotorStatus, KinematicsRequest,
                KinematicsData, PowerRequest, PowerData, ThermalRequest, ThermalData, EnvironmentAck,
                EnvironmentRequest, EnvironmentData, AutoDriveCommand, AutoDriveStatus, InternalEnvRequest,
                InternalEnvData]
  const ROOTS := [SUB_CMD] + seq(|IDS|, i requires 0 <= i < |IDS| => PayloadOf(IDS[i]))

  // ---- the names are distinct ------------------------------------------------------------------------

  /** The length and the third letter tell all names apart. */
  function Key(name: string): nat {
    if |name| < 3 then 0 else 1000 * |name| + name[2] as int
  }

  function PartWithKey(key: nat): Option<Part> {
    match key
    case 10103 => Some(Payload(Log))
    case 18121 => Some(Payload(PhysicsTick))
    case 19097 => Some(Payload(StateRequest))
    case 12097 => Some(Payload(StateData))
    case 30116 => Some(Payload(MotorSequence))
    case 18116 => Some(Payload(MotorStatus))
    case 24110 => Some(Payload(KinematicsRequest))
    case 17110 => Some(Payload(KinematicsData))
    case 19119 => Some(Payload(PowerRequest))
    case 12119 => Some(Payload(PowerData))
    case 21101 => Some(Payload(ThermalRequest))
    case 14101 => Some(Payload(ThermalData))
    case 21118 => Some(Payload(EnvironmentAck))
    case 25118 => Some(Payload(EnvironmentRequest))
    case 18118 => Some(Payload(EnvironmentData))
    case 26116 => Some(Payload(AutoDriveCommand))
    case 28116 => Some(Payload(AutoDriveStatus))
    case 25116 => Some(Payload(InternalEnvRequest))
    case 22116 => Some(Payload(InternalEnvData))
    case 11116 => Some(NestedSubCmd)
    case 7105 => Some(NestedPoint)
    case 13117 => Some(NestedBox)
    case 7099 => Some(NestedVector)
    case 12110 => Some(NestedManeuver)
    case 13110 => Some(NestedStats)
    case 5118 => Some(NestedEnvId)
    case 40100 => Some(NestedSharedPtr)
    case _ => None
  }

  function PayloadKey(id: MsgId): nat {
    match id
    case Log => 10103
    case PhysicsTick => 18121
    case StateRequest => 19097
    case StateData => 12097
    case MotorSequence => 30116
    case MotorStatus => 18116
    case KinematicsRequest => 24110
    case KinematicsData => 17110
    case PowerRequest => 19119
    case PowerData => 12119
    case ThermalRequest => 21101
    case ThermalData => 14101
    case EnvironmentAck => 21118
    case EnvironmentRequest => 25118
    case EnvironmentData => 18118
    case AutoDriveCommand => 26116
    case AutoDriveStatus => 28116
    case InternalEnvRequest => 25116
    case InternalEnvData => 22116
  }

  predicate Flagged(id: MsgId) { id in [StateRequest, KinematicsRequest, PowerRequest, ThermalRequest] }

  predicate Located(id: MsgId) { id in [EnvironmentRequest, InternalEnvRequest] }

  predicate Templated(id: MsgId) { id in [AutoDriveCommand, AutoDriveStatus] }

  predicate Regional(id: MsgId) { id in [MotorSequence, EnvironmentAck, EnvironmentData, InternalEnvData] }

  lemma FlagHasKey(id: MsgId)
    requires Flagged(id)
    ensures Key(PayloadOf(id).name) == PayloadKey(id)
  {
  }

  lemma LocationHasKey(id: MsgId)
    requires Located(id)
    ensures Key(PayloadOf(id).name) == PayloadKey(id)
  {
  }

  lemma TemplateHasKey(id: MsgId)
    requires Templated(id)
    ensures Key(PayloadOf(id).name) == PayloadKey(id)
  {
  }

  lemma RegionHasKey(id: MsgId)
    requires Regional(id)
    ensures Key(PayloadOf(id).name) == PayloadKey(id)
  {
  }

  lemma OtherHasKey(id: MsgId)
    requires !Flagged(id) && !Located(id) && !Templated(id) && !Regional(id)
    ensures Key(PayloadOf(id).name) == PayloadKey(id)
  {
  }

  lemma PayloadHasKey(id: MsgId)
    ensures PartWithKey(Key(PayloadOf(id).name)) == Some(Payload(id))
  {
    KeyHasPayload(id);
    hide *;
    if Flagged(id) {
      FlagHasKey(id);
    } else if Located(id) {
      LocationHasKey(id);
    } else if Templated(id) {
      TemplateHasKey(id);
    } else if Regional(id) {
      RegionHasKey(id);
    } else {
      OtherHasKey(id);
    }
  }

  lemma KeyHasPayload(id: MsgId)
    ensures PartWithKey(PayloadKey(id)) == Some(Payload(id))
  {
  }

  lemma PartHasKey(p: Part)
    ensures PartWithKey(Key(LayoutOf(p).name)) == Some(p)
  {
    if p.Payload? {
      PayloadHasKey(p.id);
      hide PayloadOf, Key;
    }
  }

  lemma NamesAreDistinct(a: Layout, b: Layout)
    requires Known(a) && Known(b) && a.name == b.name
    ensures a == b
  {
    var p, q :| LayoutOf(p) == a && LayoutOf(q) == b;
    PartHasKey(p);
    PartHasKey(q);
    hide LayoutOf, PartWithKey, Key;
  }

  // ---- nothing else is reachable ---------------------------------------------------------------------

  ghost predicate OnlyKnown(t: CType) { forall l | l in Parts(t) :: Known(l) }

  ghost predicate FieldsKnown(l: Layout) { forall k | 0 <= k < |l.fields| :: OnlyKnown(l.fields[k].ty) }

  lemma ScalarIsKnown(t: CType)
    requires SubLayout(t).None?
    ensures OnlyKnown(t)
  {
  }

  lemma PartIsKnown(p: Part)
    requires FieldsKnown(LayoutOf(p))
    ensures OnlyKnown(Class(LayoutOf(p)))
  {
    var l := LayoutOf(p);
    hide LayoutOf, Known;
    assert Known(l) by { IsKnown(p); }
    forall q | q in Parts(Class(l)) ensures Known(q) {
      if q != l {
        var k :| 0 <= k < |l.fields| && q in Parts(l.fields[k].ty);
        assert OnlyKnown(l.fields[k].ty);
      }
    }
  }

  lemma IsKnown(p: Part)
    ensures Known(LayoutOf(p))
  {
  }

  /** No nesting, or only nesting that is known. */
  lemma FlatIsKnown(p: Part)
    requires var l := LayoutOf(p);
             forall k | 0 <= k < |l.fields| ::
               SubLayout(l.fields[k].ty).Some? ==> OnlyKnown(Class(SubLayout(l.fields[k].ty).value))
    ensures OnlyKnown(Class(LayoutOf(p)))
  {
    var l := LayoutOf(p);
    hide LayoutOf, Known;
    forall k | 0 <= k < |l.fields| ensures OnlyKnown(l.fields[k].ty) {
      if SubLayout(l.fields[k].ty).None? {
        ScalarIsKnown(l.fields[k].ty);
      } else {
        SubIsShallower(l, k);
      }
    }
    PartIsKnown(p);
  }

  lemma NestedAreKnown()
    ensures OnlyKnown(Class(SUB_CMD)) && OnlyKnown(Class(POINT)) && OnlyKnown(Class(VECTOR)) && OnlyKnown(Class(STATS))
    ensures OnlyKnown(Class(ENV_ID)) && OnlyKnown(Class(SHARED_PTR)) && OnlyKnown(Class(BOX))
            && OnlyKnown(Class(MANEUVER))
  {
    hide OnlyKnown;
    FlatIsKnown(NestedSubCmd);
    FlatIsKnown(NestedPoint);
    FlatIsKnown(NestedVector);
    FlatIsKnown(NestedStats);
    FlatIsKnown(NestedEnvId);
    FlatIsKnown(NestedSharedPtr);
    FlatIsKnown(NestedBox);
    FlatIsKnown(NestedManeuver);
  }

  lemma PayloadIsKnown(id: MsgId)
    ensures OnlyKnown(Class(PayloadOf(id)))
  {
    NestedAreKnown();
    hide OnlyKnown;
    FlatIsKnown(Payload(id));
  }

  // ---- everything known is reachable -----------------------------------------------------------------

  lemma RootPart(i: nat, p: Layout)
    requires i < |ROOTS| && p in Parts(Class(ROOTS[i]))
    ensures p in AllParts(ROOTS)
  {
    hide Parts;
  }

  lemma AllAreRoots(id: MsgId) returns (i: nat)
    ensures i < |ROOTS| && ROOTS[i] == PayloadOf(id)
  {
    hide PayloadOf;
    assert id in IDS;
    var k :| 0 <= k < |IDS| && IDS[k] == id;
    i := k + 1;
  }

  lemma InParts(l: Layout, k: nat, p: Layout)
    requires k < |l.fields| && SubLayout(l.fields[k].ty).Some? && p in Parts(Class(SubLayout(l.fields[k].ty).value))
    ensures p in Parts(Class(l))
  {
    SubIsShallower(l, k);
  }

  lemma PayloadReached(id: MsgId, p: Layout)
    requires p in Parts(Class(PayloadOf(id)))
    ensures p in AllParts(ROOTS)
  {
    hide *;
    var i := AllAreRoots(id);
    RootPart(i, p);
  }

  /** A field of the payload of `id` nests it. */
  lemma FieldReached(id: MsgId, k: nat, p: Layout)
    requires k < |PayloadOf(id).fields| && SubLayout(PayloadOf(id).fields[k].ty) == Some(p)
    ensures p in AllParts(ROOTS)
  {
    hide AllParts, PayloadOf, SubLayout;
    assert p in Parts(Class(p));
    InParts(PayloadOf(id), k, p);
    PayloadReached(id, p);
  }

  lemma KnownIsReached(p: Part)
    ensures LayoutOf(p) in AllParts(ROOTS)
  {
    hide AllParts, Parts;
    match p
    case Payload(id) => PayloadReachesItself(id);
    case NestedSubCmd => FieldReached(MotorSequence, 2, SUB_CMD);
    case NestedPoint => FieldReached(EnvironmentRequest, 0, POINT);
    case NestedBox => FieldReached(EnvironmentData, 1, BOX);
    case NestedVector => FieldReached(AutoDriveCommand, 4, VECTOR);
    case NestedManeuver => FieldReached(AutoDriveCommand, 6, MANEUVER);
    case NestedStats => FieldReached(AutoDriveStatus, 4, STATS);
    case NestedEnvId => FieldReached(AutoDriveStatus, 6, ENV_ID);
    case NestedSharedPtr => FieldReached(InternalEnvData, 0, SHARED_PTR);
  }

  lemma PayloadReachesItself(id: MsgId)
    ensures PayloadOf(id) in AllParts(ROOTS)
  {
    hide PayloadOf, AllParts;
    PayloadReached(id, PayloadOf(id));
  }

  lemma RootIsKnown(i: nat)
    requires i < |ROOTS|
    ensures OnlyKnown(Class(ROOTS[i]))
  {
    if i == 0 {
      NestedAreKnown();
    } else {
      PayloadIsKnown(IDS[i - 1]);
    }
    hide PayloadOf, OnlyKnown;
  }

  lemma ReachedIsKnown(l: Layout)
    ensures l in AllParts(ROOTS) <==> Known(l)
  {
    hide Parts, LayoutOf, PayloadOf;
    if l in AllParts(ROOTS) {
      var i :| 0 <= i < |ROOTS| && l in Parts(Class(ROOTS[i]));
      RootIsKnown(i);
    }
    if Known(l) {
      var p :| LayoutOf(p) == l;
      KnownIsReached(p);
    }
  }

  // ---- twenty-seven of them --------------------------------------------------------------------------

  const NESTED := [NestedSubCmd, NestedPoint, NestedBox, NestedVector, NestedManeuver, NestedStats, NestedEnvId,
                   NestedSharedPtr]
  const COUNT := 27

  function Nth(n: nat): Part
    requires n < COUNT
  {
    if n < |IDS| then Payload(IDS[n]) else NESTED[n - |IDS|]
  }

  function Number(p: Part): (n: nat)
    ensures n < COUNT
  {
    match p
    case Payload(Log) => 0
    case Payload(PhysicsTick) => 1
    case Payload(StateRequest) => 2
    case Payload(StateData) => 3
    case Payload(MotorSequence) => 4
    case Payload(MotorStatus) => 5
    case Payload(KinematicsRequest) => 6
    case Payload(KinematicsData) => 7
    case Payload(PowerRequest) => 8
    case Payload(PowerData) => 9
    case Payload(ThermalRequest) => 10
    case Payload(ThermalData) => 11
    case Payload(EnvironmentAck) => 12
    case Payload(EnvironmentRequest) => 13
    case Payload(EnvironmentData) => 14
    case Payload(AutoDriveCommand) => 15
    case Payload(AutoDriveStatus) => 16
    case Payload(InternalEnvRequest) => 17
    case Payload(InternalEnvData) => 18
    case NestedSubCmd => 19
    case NestedPoint => 20
    case NestedBox => 21
    case NestedVector => 22
    case NestedManeuver => 23
    case NestedStats => 24
    case NestedEnvId => 25
    case NestedSharedPtr => 26
  }

  lemma NumberOf(i: nat)
    requires i < COUNT
    ensures Number(Nth(i)) == i
  {
  }

  lemma PartAt(p: Part)
    ensures Nth(Number(p)) == p
  {
  }

  ghost function UpTo(n: nat): set<Layout>
    requires n <= COUNT
  {
    if n == 0 then {} else UpTo(n - 1) + {LayoutOf(Nth(n - 1))}
  }

  lemma {:induction false} UpToIs(n: nat, l: Layout) returns (i: nat)
    requires n <= COUNT && l in UpTo(n)
    ensures i < n && LayoutOf(Nth(i)) == l
  {
    hide LayoutOf, Number;
    if l == LayoutOf(Nth(n - 1)) {
      i := n - 1;
    } else {
      i := UpToIs(n - 1, l);
    }
  }

  lemma {:induction false} InUpTo(n: nat, i: nat)
    requires i < n <= COUNT
    ensures LayoutOf(Nth(i)) in UpTo(n)
    decreases n
  {
    hide LayoutOf, Number;
    if i < n - 1 {
      InUpTo(n - 1, i);
    }
  }

  lemma {:induction false} CountUpTo(n: nat)
    requires n <= COUNT
    ensures |UpTo(n)| == n
  {
    hide LayoutOf, Number, Key, PartWithKey;
    if n > 0 {
      CountUpTo(n - 1);
      var l := LayoutOf(Nth(n - 1));
      if l in UpTo(n - 1) {
        var i := UpToIs(n - 1, l);
        PartHasKey(Nth(i));
        PartHasKey(Nth(n - 1));
        NumberOf(i);
        NumberOf(n - 1);
      }
    }
  }

  lemma KnownIsUpTo(l: Layout)
    ensures Known(l) <==> l in UpTo(COUNT)
  {
    hide LayoutOf, Number;
    if Known(l) {
      var p :| LayoutOf(p) == l;
      PartAt(p);
      InUpTo(COUNT, Number(p));
    }
    if l in UpTo(COUNT) {
      var i := UpToIs(COUNT, l);
      assert LayoutOf(Nth(i)) == l;
    }
  }

  lemma {:induction false} OnceCounts(out: seq<Emitted>)
    requires EachOnce(out)
    ensures |Layouts(out)| == |out|
    decreases |out|
  {
    if out != [] {
      var init, last := out[..|out| - 1], out[|out| - 1];
      OnceCounts(init);
      LayoutsAppend(init, [last]);
      assert out == init + [last];
      assert Layouts([last]) == {last.layout} by {
        assert [last][0].layout == last.layout;
      }
      assert last.layout !in Layouts(init);
    }
  }

  /** The struct part of main(): exactly these 27 classes, once each, every class after the classes it uses. */
  method GenerateAll() returns (out: seq<Emitted>)
    ensures |out| == 27 && forall l :: l in Layouts(out) <==> Known(l)
    ensures EachOnce(out) && Topological(out) && Translated(out)
  {
    hide Known, Layouts, AllParts, PayloadOf, EachOnce, Topological, Translated, UpTo;
    forall l: Layout ensures l in AllParts(ROOTS) <==> Known(l) {
      ReachedIsKnown(l);
    }
    assert DistinctNames(AllParts(ROOTS)) by {
      forall a, b | a in AllParts(ROOTS) && b in AllParts(ROOTS) && a.name == b.name ensures a == b {
        NamesAreDistinct(a, b);
      }
    }
    out := GenerateBindings(ROOTS);
    forall l: Layout ensures Known(l) <==> l in UpTo(COUNT) {
      KnownIsUpTo(l);
    }
    assert Layouts(out) == UpTo(COUNT);
    CountUpTo(COUNT);
    OnceCounts(out);
  }
}
