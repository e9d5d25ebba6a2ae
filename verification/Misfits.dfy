/** Layouts and values for which the generated bindings do not do what they promise. */
module Misfits {
  import opened Wrappers
  import opened Bytes
  import opened Messages
  import opened StructFormat
  import opened Schema
  import opened Generator
  import opened PackProofs
  import opened UnpackProofs
  import opened Protocol

  /** A scoped enum without an underlying type: four bytes, for which there is no format character. */
  const WIDE := Layout("Wide", [Field("mode", Enumeration(4), 0)], 4)

  function AsBool(mode: uint32): seq<byte> { [if mode != 0 then 1 else 0] }

  /** It is packed as a bool, and three bytes are missing. */
  lemma WideEnumIsShort(mode: uint32)
    ensures LaidOut(WIDE) && ObjConforms(WIDE, [VInt(mode)])
    ensures RunPack(ClassOf(WIDE), VObj([VInt(mode)])) == Some(AsBool(mode)) && SizeOf(Class(WIDE)) == 4
  {
    var fs := [VInt(mode)];
    WideOneByOne(fs);
    hide RunPack, ClassOf, OneByOne, Piece, AsBool;
    BatchingIsTransparent(WIDE, fs);
    CatNeutral(Some(AsBool(mode)));
  }

  lemma WideOneByOne(fs: seq<Value>)
    requires |fs| == 1 && fs[0].VInt? && 0 <= fs[0].i < 0x1_0000_0000
    ensures OneByOne(WIDE, fs, 1) == Some(AsBool(fs[0].i)) && Zeros(WIDE.size - End(WIDE, 1)) == []
  {
    hide RunPack, ClassOf;
    assert Zeros(0) == [];
    assert OneByOne(WIDE, fs, 0) == Some([]);
    CatNeutral<byte>(Some([]));
    CatNeutral(Piece(0, WIDE.fields[0], fs));
  }

  const INNER := Layout("A", [Field("v", U8, 0)], 1)
  const ALIGNED := Layout("B", [Field("v", U32, 0)], 4)

  /** A struct of one byte, and one that starts at the next multiple of four. */
  const SPREAD := Layout("AB", [Field("a", Class(INNER), 0), Field("b", Class(ALIGNED), 4)], 8)

  /** The three bytes between them are a run of their own, which assigns to nothing. */
  lemma SpreadDoesNotParse()
    ensures LaidOut(SPREAD) && !Parses(ClassOf(SPREAD))
  {
    assert BareGap(SPREAD, 1);
    GeneratedModuleParses(SPREAD);
  }

  const LOG := PayloadOf(Log)

  /** A log record whose text is shorter than its field. */
  predicate ShortRecord(fs: seq<Value>) {
    |fs| == 3 && fs[0].VBytes? && |fs[0].data| < 255 && fs[1].VInt? && 0 <= fs[1].i < 256 && fs[2].VBytes?
  }

  function Filled(fs: seq<Value>): seq<Value>
    requires ShortRecord(fs)
  {
    [VBytes(fs[0].data + Zeros(255 - |fs[0].data|)), fs[1], VBytes(Fit(32, fs[2].data))]
  }

  /** It comes back with the text filled up, so never as it was. */
  lemma ShortTextIsFilled(fs: seq<Value>)
    requires ShortRecord(fs)
    ensures ObjConforms(LOG, fs)
    ensures var r := RunPack(ClassOf(LOG), VObj(fs));
            r.Some? && RunUnpack(ClassOf(LOG), r.value) == Some(VObj(Filled(fs))) != Some(VObj(fs))
  {
    LogRegular();
    LogConforms(fs);
    UnpackOfPack(LOG, fs);
    hide *;
  }

  lemma LogConforms(fs: seq<Value>)
    requires ShortRecord(fs)
    ensures ObjConforms(LOG, fs) && !Exact(Class(LOG), VObj(fs)) && Normal(Class(LOG), VObj(fs)) == VObj(Filled(fs))
  {
    assert IsBytes(LOG.fields[0].ty) && IsBytes(LOG.fields[2].ty);
    assert !Exact(LOG.fields[0].ty, fs[0]);
    assert Normal(LOG.fields[1].ty, fs[1]) == fs[1];
  }
}
