/**
  C++ payload types as the compiler lays them out, the memory image of a value, and the reading of a
  buffer at the field offsets. This is the reference the generated bindings are measured against.
 */
module Schema {
  import opened Wrappers
  import opened Bytes
  import opened StructFormat

  datatype CType =
    | Boolean
    | Integer(size: nat, signed: bool)        // char included
    | Floating(size: nat)
    | Enumeration(size: nat)
    | Array(elem: CType, count: nat, native: bool)   // native: T[N], otherwise std::array<T, N>
    | Class(layout: Layout)

  datatype Field = Field(name: string, ty: CType, offset: nat)

  datatype Layout = Layout(name: string, fields: seq<Field>, size: nat)

  /** char, int8_t and uint8_t arrays are exposed as Python bytes. */
  predicate IsBytes(t: CType) {
    t.Array? && t.elem.Integer? && t.elem.size == 1
  }

  function SizeOf(t: CType): nat {
    match t
    case Boolean => 1
    case Integer(size, _) => size
    case Floating(size) => size
    case Enumeration(size) => size
    case Array(elem, count, _) => Times(count, SizeOf(elem))
    case Class(layout) => layout.size
  }

  /** First byte after the first `k` fields. */
  function End(l: Layout, k: nat): nat
    requires k <= |l.fields|
  {
    if k == 0 then 0 else l.fields[k - 1].offset + SizeOf(l.fields[k - 1].ty)
  }

  /** Fields in declaration order, disjoint, inside an object of nonzero size. */
  predicate Ordered(l: Layout) {
    && l.size > 0
    && End(l, |l.fields|) <= l.size
    && forall k | 0 <= k < |l.fields| :: StartsAfter(l, k)
  }

  predicate StartsAfter(l: Layout, k: nat)
    requires k < |l.fields|
  {
    End(l, k) <= l.fields[k].offset
  }

  /** What every C++ layout satisfies, all the way down. */
  predicate WellLaid(t: CType)
    decreases t
  {
    match t
    case Boolean => true
    case Array(elem, count, _) => count > 0 && WellLaid(elem)
    case Class(l) => Ordered(l) && forall k {:trigger WellLaid(l.fields[k].ty)} | 0 <= k < |l.fields| ::
      WellLaid(l.fields[k].ty)
    case Floating(size) => size > 1
    case _ => t.size > 0
  }

  predicate LaidOut(l: Layout) {
    Ordered(l) && forall k {:trigger WellLaid(l.fields[k].ty)} | 0 <= k < |l.fields| :: WellLaid(l.fields[k].ty)
  }

  predicate Conforms(t: CType, v: Value)
    decreases t
  {
    match t
    case Boolean => v.VBool?
    case Integer(size, signed) => v.VInt? && InRange(size, signed, v.i)
    case Floating(size) => v.VFloat? && |v.bits| == size
    case Enumeration(size) => v.VInt? && InRange(size, false, v.i)
    case Array(elem, count, _) =>
      if IsBytes(t) then v.VBytes?
      else v.VList? && |v.items| == count && forall k {:trigger Conforms(elem, v.items[k])} | 0 <= k < |v.items| ::
        Conforms(elem, v.items[k])
    case Class(l) =>
      v.VObj? && |v.fields| == |l.fields|
        && forall k {:trigger Conforms(l.fields[k].ty, v.fields[k])} | 0 <= k < |l.fields| ::
        Conforms(l.fields[k].ty, v.fields[k])
  }

  predicate ObjConforms(l: Layout, vs: seq<Value>) {
    |vs| == |l.fields| && forall k {:trigger Conforms(l.fields[k].ty, vs[k])} | 0 <= k < |l.fields| ::
      Conforms(l.fields[k].ty, vs[k])
  }

  // ---- writing ---------------------------------------------------------------------------------

  lemma {:induction false} EndMonotone(l: Layout, j: nat, k: nat)
    requires Ordered(l) && j <= k <= |l.fields|
    ensures End(l, j) <= End(l, k) <= l.size
    ensures j < k ==> End(l, j) <= l.fields[j].offset && End(l, j + 1) <= End(l, k)
    decreases |l.fields| - j
  {
    assert j < |l.fields| ==> StartsAfter(l, j);
    if j < k {
      EndMonotone(l, j + 1, k);
    } else if k < |l.fields| {
      EndMonotone(l, k + 1, |l.fields|);
    }
  }

  /** The bytes of a C++ object holding `v`, on a little-endian host, padding zero. */
  function Image(t: CType, v: Value): (b: seq<byte>)
    requires WellLaid(t) && Conforms(t, v)
    ensures |b| == SizeOf(t)
    decreases t, 0
  {
    match t
    case Boolean => [if v.b then 1 else 0]
    case Integer(size, signed) => IntRead(size, signed, v.i); EncodeInt(size, v.i)
    case Floating(size) => v.bits
    case Enumeration(size) => IntRead(size, false, v.i); EncodeInt(size, v.i)
    case Array(elem, count, _) =>
      if IsBytes(t) then Fit(count, v.data) else ElemsImage(elem, v.items)
    case Class(l) => ObjImage(l, v.fields, |l.fields|)
  }

  function ElemsImage(elem: CType, items: seq<Value>): (b: seq<byte>)
    requires WellLaid(elem) && forall k | 0 <= k < |items| :: Conforms(elem, items[k])
    ensures |b| == Times(|items|, SizeOf(elem))
    decreases elem, |items| + 1
  {
    if items == [] then []
    else
      var last := |items| - 1;
      ElemsImage(elem, items[..last]) + Image(elem, items[last])
  }

  /** The object's memory after its first `k` fields were stored at their offsets. */
  function ObjImage(l: Layout, vs: seq<Value>, k: nat): (b: seq<byte>)
    requires LaidOut(l) && ObjConforms(l, vs) && k <= |l.fields|
    ensures |b| == l.size
    decreases l, k + 1
  {
    if k == 0 then Zeros(l.size)
    else
      EndMonotone(l, k, |l.fields|);
      var f := l.fields[k - 1];
      Overlay(ObjImage(l, vs, k - 1), f.offset, Image(f.ty, vs[k - 1]))
  }

  lemma {:induction false} FieldStored(l: Layout, vs: seq<Value>, k: nat, j: nat)
    requires LaidOut(l) && ObjConforms(l, vs) && j < k <= |l.fields|
    ensures End(l, j + 1) <= l.size
    ensures ObjImage(l, vs, k)[l.fields[j].offset..End(l, j + 1)] == Image(l.fields[j].ty, vs[j])
    decreases k
  {
    EndMonotone(l, j + 1, |l.fields|);
    if j < k - 1 {
      FieldStored(l, vs, k - 1, j);
      EndMonotone(l, j + 1, k - 1);
      EndMonotone(l, k - 1, k);
      EndMonotone(l, k, |l.fields|);
      var f := l.fields[k - 1];
      OverlayKeeps(ObjImage(l, vs, k - 1), f.offset, Image(f.ty, vs[k - 1]), l.fields[j].offset, End(l, j + 1));
    }
  }

  /** The elements of an array lie back to back. */
  lemma {:induction false} ElementStored(elem: CType, items: seq<Value>, k: nat)
    requires WellLaid(elem) && (forall i | 0 <= i < |items| :: Conforms(elem, items[i])) && k < |items|
    ensures var o, b := Times(k, SizeOf(elem)), ElemsImage(elem, items);
            o + SizeOf(elem) <= |b| && b[o..o + SizeOf(elem)] == Image(elem, items[k])
    decreases |items|
  {
    hide *;
    var last := |items| - 1;
    ElemsSnoc(elem, items);
    var init, tail := ElemsImage(elem, items[..last]), Image(elem, items[last]);
    if k < last {
      ElementStored(elem, items[..last], k);
      FrontSlice(init, tail, Times(k, SizeOf(elem)), Times(k, SizeOf(elem)) + SizeOf(elem));
    } else {
      BackSlice(init, tail);
    }
  }

  lemma ElemsSnoc(elem: CType, items: seq<Value>)
    requires WellLaid(elem) && items != [] && forall i | 0 <= i < |items| :: Conforms(elem, items[i])
    ensures var last := |items| - 1;
            && ElemsImage(elem, items) == ElemsImage(elem, items[..last]) + Image(elem, items[last])
            && |ElemsImage(elem, items[..last])| == Times(last, SizeOf(elem))
            && |Image(elem, items[last])| == SizeOf(elem)
  {
    hide Image, Conforms, WellLaid, SizeOf, Times;
  }

  lemma BackSlice(a: seq<byte>, b: seq<byte>)
    ensures (a + b)[|a|..|a| + |b|] == b
  {
  }

  lemma FrontSlice(a: seq<byte>, b: seq<byte>, lo: nat, hi: nat)
    requires lo <= hi <= |a|
    ensures (a + b)[lo..hi] == a[lo..hi]
  {
  }

  /** Integers and enumerators. */
  predicate IsWhole(t: CType) { t.Integer? || t.Enumeration? }

  lemma WholeByte(t: CType, v: Value, i: nat)
    requires WellLaid(t) && Conforms(t, v) && IsWhole(t) && i < t.size
    ensures v.i + Pow256(t.size) >= 0 && Image(t, v)[i] == (Unsigned(t.size, v.i) / Pow256(i)) % 256
  {
    IntRead(t.size, t.Integer? && t.signed, v.i);
    EncodedByte(t.size, v.i, i);
  }

  /** An integer field in memory: byte `i` behind its offset has weight 256^i. */
  lemma IntegerStored(l: Layout, vs: seq<Value>, k: nat, i: nat)
    requires LaidOut(l) && ObjConforms(l, vs) && k < |l.fields| && IsWhole(l.fields[k].ty) && i < l.fields[k].ty.size
    ensures l.fields[k].offset + i < l.size
    ensures var size := l.fields[k].ty.size;
            && Conforms(l.fields[k].ty, vs[k])
            && Image(Class(l), VObj(vs))[l.fields[k].offset + i] == (Unsigned(size, vs[k].i) / Pow256(i)) % 256
  {
    var f := l.fields[k];
    FieldStored(l, vs, |l.fields|, k);
    WholeByte(f.ty, vs[k], i);
    var b := ObjImage(l, vs, |l.fields|);
    assert b[f.offset + i] == b[f.offset..End(l, k + 1)][i];
  }

  predicate ZeroFrom(b: seq<byte>, e: nat) {
    forall i | e <= i < |b| :: b[i] == 0
  }

  /** Storing fields in order appends them, behind zeros for the gap. */
  lemma ImageGrows(l: Layout, vs: seq<Value>, k: nat)
    requires LaidOut(l) && ObjConforms(l, vs) && 0 < k <= |l.fields|
    requires ZeroFrom(ObjImage(l, vs, k - 1), End(l, k - 1))
    ensures End(l, k - 1) <= l.fields[k - 1].offset && End(l, k) <= l.size
    ensures ZeroFrom(ObjImage(l, vs, k), End(l, k))
    ensures ObjImage(l, vs, k)[..End(l, k)]
         == ObjImage(l, vs, k - 1)[..End(l, k - 1)] + Zeros(l.fields[k - 1].offset - End(l, k - 1))
            + Image(l.fields[k - 1].ty, vs[k - 1])
  {
    EndMonotone(l, k - 1, k);
    EndMonotone(l, k, |l.fields|);
    var f := l.fields[k - 1];
    var before, after := ObjImage(l, vs, k - 1), ObjImage(l, vs, k);
    forall i | End(l, k) <= i < |after| ensures after[i] == 0 {
      assert after[i] == after[End(l, k)..][i - End(l, k)] == before[End(l, k)..][i - End(l, k)];
    }
    assert before[..f.offset] == before[..End(l, k - 1)] + Zeros(f.offset - End(l, k - 1));
    assert after[..End(l, k)] == after[..f.offset] + after[f.offset..End(l, k)];
  }

  /** Byte `i` lies in none of the first `k` fields. */
  predicate Padding(l: Layout, k: nat, i: nat)
    requires k <= |l.fields|
  {
    forall j | 0 <= j < k :: i < l.fields[j].offset || End(l, j + 1) <= i
  }

  lemma {:induction false} PaddingIsZero(l: Layout, vs: seq<Value>, k: nat, i: nat)
    requires LaidOut(l) && ObjConforms(l, vs) && k <= |l.fields|
    requires i < l.size && Padding(l, k, i)
    ensures ObjImage(l, vs, k)[i] == 0
    decreases k
  {
    if k > 0 {
      PaddingIsZero(l, vs, k - 1, i);
      EndMonotone(l, k, |l.fields|);
      hide Image, Overlay, Conforms, WellLaid;
      OverlayElsewhere(ObjImage(l, vs, k - 1), l.fields[k - 1].offset, Image(l.fields[k - 1].ty, vs[k - 1]), i);
    }
  }

  // ---- reading ---------------------------------------------------------------------------------

  function Read(t: CType, b: seq<byte>): Value
    requires WellLaid(t) && |b| == SizeOf(t)
    decreases t, 0
  {
    match t
    case Boolean => VBool(b[0] != 0)
    case Integer(_, signed) => VInt(DecodeInt(signed, b))
    case Floating(_) => VFloat(b)
    case Enumeration(_) => VInt(DecodeInt(false, b))
    case Array(elem, count, _) =>
      if IsBytes(t) then VBytes(b) else VList(ReadElems(elem, count, b))
    case Class(l) => VObj(ReadFields(l, b))
  }

  function ReadElems(elem: CType, count: nat, b: seq<byte>): (vs: seq<Value>)
    requires WellLaid(elem) && |b| == Times(count, SizeOf(elem))
    ensures |vs| == count
    decreases elem, count + 1
  {
    if count == 0 then []
    else
      var done := Times(count - 1, SizeOf(elem));
      ReadElems(elem, count - 1, b[..done]) + [Read(elem, b[done..|b|])]
  }

  function FieldSlice(l: Layout, b: seq<byte>, k: nat): (s: seq<byte>)
    requires Ordered(l) && k < |l.fields| && |b| == l.size
    ensures |s| == SizeOf(l.fields[k].ty)
  {
    EndMonotone(l, k + 1, |l.fields|);
    b[l.fields[k].offset..End(l, k + 1)]
  }

  function ReadFields(l: Layout, b: seq<byte>): (vs: seq<Value>)
    requires LaidOut(l) && |b| == l.size
    ensures |vs| == |l.fields|
    decreases l
  {
    seq(|l.fields|, k requires 0 <= k < |l.fields| => Read(l.fields[k].ty, FieldSlice(l, b, k)))
  }

  /** `v` with every byte array cut or filled to its declared length. */
  function Normal(t: CType, v: Value): Value
    requires Conforms(t, v)
    decreases t
  {
    match t
    case Array(elem, count, _) =>
      if IsBytes(t) then VBytes(Fit(count, v.data))
      else VList(seq(|v.items|, k requires 0 <= k < |v.items| => Normal(elem, v.items[k])))
    case Class(l) =>
      VObj(seq(|l.fields|, k requires 0 <= k < |l.fields| => Normal(l.fields[k].ty, v.fields[k])))
    case _ => v
  }

  /** Every byte array has exactly its declared length. */
  predicate Exact(t: CType, v: Value)
    requires Conforms(t, v)
    decreases t
  {
    match t
    case Array(elem, count, _) =>
      if IsBytes(t) then |v.data| == count else forall k | 0 <= k < |v.items| :: Exact(elem, v.items[k])
    case Class(l) => forall k | 0 <= k < |l.fields| :: Exact(l.fields[k].ty, v.fields[k])
    case _ => true
  }

  lemma {:induction false} NormalIffExact(t: CType, v: Value)
    requires Conforms(t, v)
    ensures Normal(t, v) == v <==> Exact(t, v)
    decreases t
  {
    match t
    case Array(elem, count, _) =>
      if !IsBytes(t) {
        forall k | 0 <= k < |v.items| ensures Normal(elem, v.items[k]) == v.items[k] <==> Exact(elem, v.items[k]) {
          NormalIffExact(elem, v.items[k]);
        }
        if Normal(t, v) == v {
          forall k | 0 <= k < |v.items| ensures Normal(elem, v.items[k]) == v.items[k] {
            assert Normal(t, v).items[k] == v.items[k];
          }
        }
      }
    case Class(l) =>
      forall k | 0 <= k < |l.fields|
        ensures Normal(l.fields[k].ty, v.fields[k]) == v.fields[k] <==> Exact(l.fields[k].ty, v.fields[k])
      {
        NormalIffExact(l.fields[k].ty, v.fields[k]);
      }
      if Normal(t, v) == v {
        forall k | 0 <= k < |l.fields| ensures Normal(l.fields[k].ty, v.fields[k]) == v.fields[k] {
          assert Normal(t, v).fields[k] == v.fields[k];
        }
      }
    case _ =>
  }

  /** Reading a memory image gives the value back. */
  lemma {:induction false} ReadOfImage(t: CType, v: Value)
    requires WellLaid(t) && Conforms(t, v)
    ensures Read(t, Image(t, v)) == Normal(t, v)
    decreases t, 0
  {
    match t
    case Boolean =>
    case Integer(size, signed) => IntRead(size, signed, v.i);
    case Floating(_) =>
    case Enumeration(size) => IntRead(size, false, v.i);
    case Array(elem, count, _) =>
      if !IsBytes(t) {
        ReadOfElems(elem, v.items);
      }
    case Class(l) =>
      var b := Image(t, v);
      forall k | 0 <= k < |l.fields|
        ensures Read(l.fields[k].ty, FieldSlice(l, b, k)) == Normal(l.fields[k].ty, v.fields[k])
      {
        FieldStored(l, v.fields, |l.fields|, k);
        ReadOfImage(l.fields[k].ty, v.fields[k]);
      }
  }

  lemma ReadElemsSnoc(elem: CType, n: nat, done: seq<byte>, last: seq<byte>)
    requires WellLaid(elem) && |done| == Times(n, SizeOf(elem)) && |last| == SizeOf(elem)
    ensures |done + last| == Times(n + 1, SizeOf(elem))
    ensures ReadElems(elem, n + 1, done + last) == ReadElems(elem, n, done) + [Read(elem, last)]
  {
    hide Read, SizeOf, WellLaid;
    assert (done + last)[..|done|] == done && (done + last)[|done|..|done + last|] == last;
  }

  lemma {:induction false} ReadOfElems(elem: CType, items: seq<Value>)
    requires WellLaid(elem) && forall k | 0 <= k < |items| :: Conforms(elem, items[k])
    ensures ReadElems(elem, |items|, ElemsImage(elem, items))
         == seq(|items|, k requires 0 <= k < |items| => Normal(elem, items[k]))
    decreases elem, |items| + 1
  {
    hide Image, Read, Normal, Conforms, SizeOf, WellLaid;
    if items != [] {
      var last := |items| - 1;
      ReadOfImage(elem, items[last]);
      ReadOfElems(elem, items[..last]);
      ReadElemsSnoc(elem, last, ElemsImage(elem, items[..last]), Image(elem, items[last]));
      hide ReadElems, Times;
    }
  }

  // ---- reading first -----------------------------------------------------------------------------

  /** `b` with padding cleared and every bool byte reduced to 0 or 1. */
  function Canonical(t: CType, b: seq<byte>): (c: seq<byte>)
    requires WellLaid(t) && |b| == SizeOf(t)
    ensures |c| == SizeOf(t)
    decreases t, 0
  {
    match t
    case Boolean => [if b[0] != 0 then 1 else 0]
    case Array(elem, count, _) => if IsBytes(t) then b else CanonicalElems(elem, count, b)
    case Class(l) => CanonicalObj(l, b, |l.fields|)
    case _ => b
  }

  function CanonicalElems(elem: CType, count: nat, b: seq<byte>): (c: seq<byte>)
    requires WellLaid(elem) && |b| == Times(count, SizeOf(elem))
    ensures |c| == |b|
    decreases elem, count + 1
  {
    if count == 0 then []
    else
      var done := Times(count - 1, SizeOf(elem));
      CanonicalElems(elem, count - 1, b[..done]) + Canonical(elem, b[done..|b|])
  }

  function CanonicalObj(l: Layout, b: seq<byte>, k: nat): (c: seq<byte>)
    requires LaidOut(l) && |b| == l.size && k <= |l.fields|
    ensures |c| == l.size
    decreases l, k + 1
  {
    if k == 0 then Zeros(l.size)
    else
      EndMonotone(l, k, |l.fields|);
      Overlay(CanonicalObj(l, b, k - 1), l.fields[k - 1].offset, Canonical(l.fields[k - 1].ty, FieldSlice(l, b, k - 1)))
  }

  lemma {:induction false} ImageOfRead(t: CType, b: seq<byte>)
    requires WellLaid(t) && |b| == SizeOf(t)
    ensures Conforms(t, Read(t, b)) && Exact(t, Read(t, b))
    ensures Image(t, Read(t, b)) == Canonical(t, b)
    decreases t, 0
  {
    match t
    case Boolean =>
    case Integer(_, signed) => IntWrite(signed, b);
    case Floating(_) =>
    case Enumeration(_) => IntWrite(false, b);
    case Array(elem, count, _) =>
      if !IsBytes(t) {
        ImageOfElems(elem, count, b);
      }
    case Class(l) =>
      forall k | 0 <= k < |l.fields|
        ensures Conforms(l.fields[k].ty, ReadFields(l, b)[k]) && Exact(l.fields[k].ty, ReadFields(l, b)[k])
      {
        ImageOfRead(l.fields[k].ty, FieldSlice(l, b, k));
      }
      ImageOfObj(l, b, |l.fields|);
  }

  lemma {:induction false} ImageOfElems(elem: CType, count: nat, b: seq<byte>)
    requires WellLaid(elem) && |b| == Times(count, SizeOf(elem))
    ensures forall k | 0 <= k < count ::
              Conforms(elem, ReadElems(elem, count, b)[k]) && Exact(elem, ReadElems(elem, count, b)[k])
    ensures ElemsImage(elem, ReadElems(elem, count, b)) == CanonicalElems(elem, count, b)
    decreases elem, count + 1
  {
    hide Image, Canonical, Read, Exact, Conforms, SizeOf;
    if count > 0 {
      var done := Times(count - 1, SizeOf(elem));
      ImageOfElems(elem, count - 1, b[..done]);
      ImageOfRead(elem, b[done..|b|]);
      assert ReadElems(elem, count, b)[..count - 1] == ReadElems(elem, count - 1, b[..done]);
    }
  }

  lemma {:induction false} ImageOfObj(l: Layout, b: seq<byte>, k: nat)
    requires LaidOut(l) && |b| == l.size && k <= |l.fields|
    requires ObjConforms(l, ReadFields(l, b))
    ensures ObjImage(l, ReadFields(l, b), k) == CanonicalObj(l, b, k)
    decreases l, k + 1
  {
    hide Image, Canonical, Read;
    if k > 0 {
      ImageOfObj(l, b, k - 1);
      ImageOfRead(l.fields[k - 1].ty, FieldSlice(l, b, k - 1));
    }
  }
}
