/** From the client's send_msg to the vehicle's position: bindings, bridge and services together. */
module EndToEnd {
  import opened Wrappers
  import opened Bytes
  import opened Messages
  import opened StructFormat
  import opened Schema
  import opened Generator
  import opened PackProofs
  import opened UnpackProofs
  import opened Protocol
  import opened Bridge
  import Motor
  import Physics
  import Mesh
  import ThreadAlone
  import MeshMotion

  // ---- a motor sequence as the bindings see it -------------------------------------------------------

  function SubCmdValue(c: SubCmd): Value {
    VObj([VInt(c.speed), VInt(c.duration)])
  }

  function SubCmdValues(steps: seq<SubCmd>): (vs: seq<Value>)
    ensures |vs| == |steps| && forall k | 0 <= k < |steps| :: vs[k] == SubCmdValue(steps[k])
  {
    seq(|steps|, k requires 0 <= k < |steps| => SubCmdValue(steps[k]))
  }

  /** The Python object for a sequence. */
  function SequenceFields(cmd: Sequence): seq<Value> {
    [VInt(cmd.cmdId), VInt(cmd.numSteps), VList(SubCmdValues(cmd.steps))]
  }

  /** The C++ object's fields, read as a sequence. */
  function SubCmdOf(v: Value): Option<SubCmd> {
    match v
    case VObj(fs) =>
      if |fs| == 2 && fs[0].VInt? && fs[1].VInt? && -0x8000 <= fs[0].i < 0x8000 && 0 <= fs[1].i < 0x1_0000_0000
      then Some(SubCmd(fs[0].i, fs[1].i)) else None
    case _ => None
  }

  function SubCmdsOf(vs: seq<Value>): Option<seq<SubCmd>> {
    if vs == [] then Some([])
    else
      var init :- SubCmdsOf(vs[..|vs| - 1]);
      var last :- SubCmdOf(vs[|vs| - 1]);
      Some(init + [last])
  }

  function SequenceOf(v: Value): Option<Sequence> {
    if !(v.VObj? && |v.fields| == 3 && v.fields[0].VInt? && v.fields[1].VInt? && v.fields[2].VList?) then None
    else
      var steps :- SubCmdsOf(v.fields[2].items);
      if |steps| == MAX_SUB_CMDS && 0 <= v.fields[0].i < 0x1_0000_0000 && 0 <= v.fields[1].i < 0x100
      then Some(Sequence(v.fields[0].i, v.fields[1].i, steps)) else None
  }

  lemma {:induction false} SubCmdsRead(steps: seq<SubCmd>)
    ensures SubCmdsOf(SubCmdValues(steps)) == Some(steps)
  {
    if steps != [] {
      var init := steps[..|steps| - 1];
      SubCmdsRead(init);
      assert SubCmdValues(steps)[..|steps| - 1] == SubCmdValues(init);
      assert init + [steps[|steps| - 1]] == steps;
    }
  }

  lemma SubCmdConforms(c: SubCmd)
    ensures Conforms(Class(SUB_CMD), SubCmdValue(c)) && Exact(Class(SUB_CMD), SubCmdValue(c))
  {
    assert Pow256(2) == 65536 && Pow256(4) == 0x1_0000_0000;
  }

  lemma StepsConform(steps: Steps)
    ensures var t, v := Many(SUB_CMD, 5), VList(SubCmdValues(steps)); Conforms(t, v) && Exact(t, v)
  {
    hide SubCmdValue;
    forall k | 0 <= k < |steps|
      ensures Conforms(Class(SUB_CMD), SubCmdValue(steps[k])) && Exact(Class(SUB_CMD), SubCmdValue(steps[k]))
    {
      SubCmdConforms(steps[k]);
    }
    hide Conforms, Exact;
    StepsList(steps);
  }

  lemma StepsList(steps: Steps)
    requires forall k | 0 <= k < |steps| ::
               Conforms(Class(SUB_CMD), SubCmdValue(steps[k])) && Exact(Class(SUB_CMD), SubCmdValue(steps[k]))
    ensures var t, v := Many(SUB_CMD, 5), VList(SubCmdValues(steps)); Conforms(t, v) && Exact(t, v)
  {
    hide SubCmdValue;
    assert !IsBytes(Many(SUB_CMD, 5));
  }

  lemma SequenceConforms(cmd: Sequence)
    ensures ObjConforms(SEQUENCE, SequenceFields(cmd)) && Exact(Class(SEQUENCE), VObj(SequenceFields(cmd)))
  {
    StepsConform(cmd.steps);
    assert Pow256(1) == 256 && Pow256(4) == 0x1_0000_0000;
    hide SubCmdValues, Many;
  }

  /** A sequence sent by the client reaches the bus once, as the same sequence. */
  lemma SequenceArrives(cmd: Sequence)
    ensures var d := SendMsg(MotorSequence, VObj(SequenceFields(cmd)));
            && d.Some?
            && var published := Injected(d.value);
               && |published| == 1 && published[0].id == MotorSequence
               && |published[0].memory| == SEQUENCE.size && WellLaid(Class(SEQUENCE))
               && SequenceOf(Read(Class(SEQUENCE), published[0].memory)) == Some(cmd)
  {
    hide Read, Image, Normal, Exact, SendMsg, Injected, SequenceFields, SequenceOf, Regular, ObjConforms;
    SequenceConforms(cmd);
    var fs := SequenceFields(cmd);
    SentIsPublished(MotorSequence, fs);
    ReadBack(fs);
    SequenceRead(cmd);
    RegularLaid(Class(SEQUENCE));
    assert PUBLISHES[1] == MotorSequence;
  }

  lemma RegularLaid(t: CType)
    requires Regular(t)
    ensures WellLaid(t)
  {
  }

  lemma ReadBack(fs: seq<Value>)
    requires ObjConforms(SEQUENCE, fs) && Exact(Class(SEQUENCE), VObj(fs))
    ensures Conforms(Class(SEQUENCE), VObj(fs)) && Normal(Class(SEQUENCE), VObj(fs)) == VObj(fs)
  {
    hide Normal, Exact;
    NormalIffExact(Class(SEQUENCE), VObj(fs));
  }

  lemma SequenceRead(cmd: Sequence)
    ensures SequenceOf(VObj(SequenceFields(cmd))) == Some(cmd)
  {
    SubCmdsRead(cmd.steps);
    hide SubCmdValues, SubCmdsOf;
  }

  /**
    The client sends a motor sequence; the bridge publishes what it reads from the datagram; and then the
    clock ticks. The vehicle has moved by exactly one tick's way at the clamped speed for every started tick
    of every step.
   */
  lemma SentSequenceMoves(bus: Mesh.Bus, cmd: Sequence, w: Mesh.World, lo: real, hi: real)
    requires Mesh.Wired(bus) && ThreadAlone.Rest(w, lo, hi) && !w.auto.active
    requires cmd.numSteps > 0 && cmd.steps[0].duration > 0
    ensures var d := SendMsg(MotorSequence, VObj(SequenceFields(cmd)));
            && d.Some? && |Injected(d.value)| == 1
            && var memory := Injected(d.value)[0].memory;
               && |memory| == SEQUENCE.size && WellLaid(Class(SEQUENCE))
               && var received := SequenceOf(Read(Class(SEQUENCE), memory));
                  && received.Some?
                  && var w1 := Mesh.Publish(bus, MsgSequence(received.value), w);
                     var w' := MeshMotion.Ticks(bus, Motor.TicksFrom(cmd, 0, Physics.TICK_US), w1);
                     && w'.kin.position - w.kin.position == MeshMotion.Way(cmd, 0)
                     && (MeshMotion.AllMeetIdeal(cmd, 0) ==>
                           w'.kin.position - w.kin.position == MeshMotion.Ideal(cmd, 0))
                     && !w'.motor.active
  {
    SequenceArrives(cmd);
    MeshMotion.Displacement(bus, cmd, w, lo, hi);
    hide SendMsg, Injected, Read, SequenceOf, SequenceFields, Mesh.Publish, Mesh.Wired, ThreadAlone.Rest,
      MeshMotion.Way, MeshMotion.Ideal;
  }
}
