/** The emitted pack programs compute memory images. */
module PackProofs {
  import opened Wrappers
  import opened Bytes
  import opened StructFormat
  import opened Schema
  import opened Generator

  /** The pending run takes one argument, an existing field, per value item. */
  predicate GenOk(g: Gen, n: nat) {
    AllRenderable(g.items) && Takers(g.items) == |g.args| && Below(g.args, n)
  }

  /** The bytes produced so far: those of the flushed runs, then those of the pending one. */
  function PackState(g: Gen, fs: seq<Value>): Option<seq<byte>>
    requires Below(g.args, |fs|)
  {
    Cat(RunPackCode(g.pack, fs), PackItems(g.items, Gather(fs, g.args)))
  }

  lemma CodeSnoc(code: seq<PackInstr>, i: PackInstr, fs: seq<Value>)
    ensures RunPackCode(code + [i], fs) == Cat(RunPackCode(code, fs), RunPackInstr(i, fs))
  {
    var c := code + [i];
    assert c[..|c| - 1] == code && c[|c| - 1] == i;
  }

  /** Flushing moves the pending run into the program and changes no byte. */
  lemma FlushPack(g: Gen, fs: seq<Value>)
    requires GenOk(g, |fs|)
    ensures GenOk(Flush(g), |fs|) && Flush(g).items == [] && Flush(g).args == []
    ensures PackState(Flush(g), fs) == PackState(g, fs) == RunPackCode(Flush(g).pack, fs)
  {
    if g.items != [] {
      FormatMeansItems(g.items, Gather(fs, g.args), [], 0);
      CodeSnoc(g.pack, PackRun(Format(g.items), g.args), fs);
    } else {
      assert g.args == [];
    }
    CatNeutral(RunPackCode(Flush(g).pack, fs));
  }

  /** One more item in the run appends the bytes of that item. */
  lemma ItemPack(g: Gen, item: Item, ks: seq<nat>, fs: seq<Value>)
    requires GenOk(g, |fs|) && Renderable(item) && Below(ks, |fs|)
    requires |ks| == if TakesValue(item) then 1 else 0
    ensures var h := g.(items := g.items + [item], args := g.args + ks);
            GenOk(h, |fs|)
            && PackState(h, fs)
               == Cat(PackState(g, fs), if TakesValue(item) then PackItem(item, fs[ks[0]]) else Some(Zeros(item.n)))
  {
    var x, y := Gather(fs, g.args), Gather(fs, ks);
    TakersSnoc(g.items, item);
    PackOne(item, y);
    PackAppend(g.items, x, [item], y);
    assert Gather(fs, g.args + ks) == x + y;
    CatAssociative(RunPackCode(g.pack, fs), PackItems(g.items, x), PackItems([item], y));
  }

  /** What one field contributes, encoded on its own. */
  function Piece(k: nat, f: Field, fs: seq<Value>): Option<seq<byte>>
    requires k < |fs|
  {
    if f.ty.Class? then RunPack(ClassOf(f.ty.layout), fs[k])
    else if Nested(f.ty) then RunPackInstr(PackEach(k, SubClass(f.ty), f.ty.native), fs)
    else PackItem(RunItem(f.ty), fs[k])
  }

  lemma PadPack(g: Gen, offset: nat, fs: seq<Value>)
    requires GenOk(g, |fs|)
    ensures GenOk(PadTo(g, offset), |fs|)
    ensures PackState(PadTo(g, offset), fs)
         == Cat(PackState(g, fs), Some(Zeros(if offset > g.offset then offset - g.offset else 0)))
  {
    if offset > g.offset {
      ItemPack(g, Pad(offset - g.offset), [], fs);
      assert g.args + [] == g.args;
    } else {
      assert Zeros(0) == [];
      CatNeutral(PackState(g, fs));
    }
  }

  lemma NestedFieldPack(q: Gen, k: nat, f: Field, fs: seq<Value>)
    requires GenOk(q, |fs|) && q.items == [] && q.args == [] && k < |fs| && Nested(f.ty)
    ensures var h := AddNested(q, k, f.ty, SubClass(f.ty));
            GenOk(h, |fs|) && PackState(h, fs) == Cat(PackState(q, fs), Piece(k, f, fs))
  {
    var i := NestedPack(k, f.ty, SubClass(f.ty));
    CodeSnoc(q.pack, i, fs);
    CatNeutral(RunPackCode(q.pack, fs));
    CatNeutral(Cat(RunPackCode(q.pack, fs), RunPackInstr(i, fs)));
  }

  lemma FieldPack(g: Gen, k: nat, f: Field, fs: seq<Value>)
    requires GenOk(g, |fs|) && k < |fs|
    ensures var h := AddField(g, k, f, SubClass(f.ty));
            GenOk(h, |fs|)
            && PackState(h, fs)
               == Cat(Cat(PackState(g, fs), Some(Zeros(if f.offset > g.offset then f.offset - g.offset else 0))),
                                       Piece(k, f, fs))
  {
    PadPack(g, f.offset, fs);
    var p := PadTo(g, f.offset);
    if Nested(f.ty) {
      FlushPack(p, fs);
      NestedFieldPack(Flush(p), k, f, fs);
    } else {
      ItemPack(p, RunItem(f.ty), [k], fs);
    }
  }

  /** Gap, field, gap, field, ...: the first `k` fields encoded one at a time. */
  function OneByOne(l: Layout, fs: seq<Value>, k: nat): Option<seq<byte>>
    requires Ordered(l) && k <= |l.fields| == |fs|
  {
    if k == 0 then Some([])
    else
      assert StartsAfter(l, k - 1);
      Cat(Cat(OneByOne(l, fs, k - 1), Some(Zeros(l.fields[k - 1].offset - End(l, k - 1)))),
        Piece(k - 1, l.fields[k - 1], fs))
  }

  lemma {:induction false} PrefixGenOk(fields: seq<Field>, k: nat)
    requires k <= |fields|
    ensures GenOk(Prefix(fields, k), |fields|)
  {
    if k > 0 {
      PrefixGenOk(fields, k - 1);
      FieldGenOk(Prefix(fields, k - 1), k - 1, fields[k - 1], SubClass(fields[k - 1].ty), |fields|);
    }
  }

  lemma FieldGenOk(g: Gen, k: nat, f: Field, sub: Option<ClassDef>, n: nat)
    requires GenOk(g, n) && k < n && (f.ty.Class? ==> sub.Some?)
    ensures GenOk(AddField(g, k, f, sub), n)
  {
    TakersSnoc(g.items, Pad(if f.offset > g.offset then f.offset - g.offset else 0));
    TakersSnoc(PadTo(g, f.offset).items, RunItem(f.ty));
  }

  lemma {:induction false} PrefixOffset(l: Layout, k: nat)
    requires Ordered(l) && k <= |l.fields|
    ensures Prefix(l.fields, k).offset == End(l, k)
  {
    if k > 0 {
      PrefixOffset(l, k - 1);
      assert StartsAfter(l, k - 1);
      FieldOffset(Prefix(l.fields, k - 1), k - 1, l.fields[k - 1], SubClass(l.fields[k - 1].ty));
    }
  }

  lemma PrefixStep(fields: seq<Field>, k: nat)
    requires 0 < k <= |fields|
    ensures Prefix(fields, k) == AddField(Prefix(fields, k - 1), k - 1, fields[k - 1], SubClass(fields[k - 1].ty))
  {
  }

  lemma OneByOneStep(l: Layout, fs: seq<Value>, k: nat)
    requires Ordered(l) && 0 < k <= |l.fields| == |fs|
    ensures End(l, k - 1) <= l.fields[k - 1].offset
    ensures OneByOne(l, fs, k)
         == Cat(Cat(OneByOne(l, fs, k - 1), Some(Zeros(l.fields[k - 1].offset - End(l, k - 1)))),
                Piece(k - 1, l.fields[k - 1], fs))
  {
    assert StartsAfter(l, k - 1);
    hide Piece, SizeOf;
  }

  lemma NothingPacked(l: Layout, fs: seq<Value>)
    requires Ordered(l) && |l.fields| == |fs|
    ensures GenOk(Prefix(l.fields, 0), |fs|) && PackState(Prefix(l.fields, 0), fs) == OneByOne(l, fs, 0)
  {
    CatNeutral<byte>(Some([]));
  }

  lemma {:induction false} PrefixPack(l: Layout, fs: seq<Value>, k: nat)
    requires Ordered(l) && k <= |l.fields| == |fs|
    ensures GenOk(Prefix(l.fields, k), |fs|) && PackState(Prefix(l.fields, k), fs) == OneByOne(l, fs, k)
  {
    hide *;
    if k == 0 {
      NothingPacked(l, fs);
    } else {
      PrefixPack(l, fs, k - 1);
      PrefixOffset(l, k - 1);
      PrefixStep(l.fields, k);
      OneByOneStep(l, fs, k);
      FieldPack(Prefix(l.fields, k - 1), k - 1, l.fields[k - 1], fs);
    }
  }

  lemma FieldOffset(g: Gen, k: nat, f: Field, sub: Option<ClassDef>)
    requires g.offset <= f.offset && (f.ty.Class? ==> sub.Some?)
    ensures AddField(g, k, f, sub).offset == f.offset + SizeOf(f.ty)
  {
  }

  lemma FinishPack(g: Gen, l: Layout, fs: seq<Value>)
    requires GenOk(g, |fs|) && g.offset <= l.size && l.fields != []
    ensures RunPackCode(Finish(g, l).pack, fs) == Cat(PackState(g, fs), Some(Zeros(l.size - g.offset)))
  {
    hide GenOk, PackState, PadTo, Flush, RunPackCode;
    PadPack(g, l.size, fs);
    FlushPack(PadTo(g, l.size), fs);
  }

  lemma RunsFinished(l: Layout, fs: seq<Value>)
    requires |fs| == |l.fields|
    ensures RunPack(ClassOf(l), VObj(fs)) == RunPackCode(Finish(Prefix(l.fields, |fs|), l).pack, fs)
  {
    hide Prefix, Finish, RunPackCode;
  }

  /** Batching fields into format runs means the same as encoding one field at a time. */
  lemma BatchingIsTransparent(l: Layout, fs: seq<Value>)
    requires Ordered(l) && |fs| == |l.fields| && fs != []
    ensures RunPack(ClassOf(l), VObj(fs))
         == Cat(OneByOne(l, fs, |fs|), Some(Zeros(l.size - End(l, |fs|))))
  {
    assert End(l, |fs|) <= l.size;
    hide *;
    PrefixPack(l, fs, |fs|);
    PrefixOffset(l, |fs|);
    FinishPack(Prefix(l.fields, |fs|), l, fs);
    RunsFinished(l, fs);
  }

  // ---- exactly the supported types -------------------------------------------------------------

  /** A format character of the type's own size exists; no empty struct; arrays of bytes or of structs only. */
  predicate Supported(t: CType)
    decreases t
  {
    match t
    case Boolean => true
    case Integer(size, _) => size in {1, 2, 4, 8}
    case Floating(size) => size in {4, 8}
    case Enumeration(size) => size in {1, 2, 8}
    case Array(elem, _, _) => IsBytes(t) || (elem.Class? && Supported(elem))
    case Class(l) => l.fields != [] && forall k {:trigger Supported(l.fields[k].ty)} | 0 <= k < |l.fields| ::
      Supported(l.fields[k].ty)
  }

  /** If `ok`, the bytes are there in full; otherwise the run fails or some are missing. */
  predicate FullIff(ok: bool, r: Option<seq<byte>>, full: seq<byte>) {
    if ok then r == Some(full) else r.Some? ==> |r.value| < |full|
  }

  predicate Faithful(t: CType, v: Value, r: Option<seq<byte>>)
    requires WellLaid(t) && Conforms(t, v)
  {
    FullIff(Supported(t), r, Image(t, v))
  }

  lemma FullAppend(ok1: bool, r1: Option<seq<byte>>, full1: seq<byte>, gap: nat, ok2: bool, r2: Option<seq<byte>>,
      full2: seq<byte>)
    requires FullIff(ok1, r1, full1) && FullIff(ok2, r2, full2)
    ensures FullIff(ok1 && ok2, Cat(Cat(r1, Some(Zeros(gap))), r2), full1 + Zeros(gap) + full2)
  {
  }

  predicate FirstSupported(l: Layout, k: nat)
    requires k <= |l.fields|
  {
    forall j {:trigger Supported(l.fields[j].ty)} | 0 <= j < k :: Supported(l.fields[j].ty)
  }

  predicate Scalar(t: CType) { !t.Array? && !t.Class? }

  /** The format character has the size, sign and kind of the type, or it is the fallback and too short. */
  lemma FormatCharFits(t: CType)
    requires Scalar(t) && WellLaid(t)
    ensures !Supported(t) ==> FormatChar(t) == '?' && SizeOf(t) > 1
    ensures Supported(t) ==> CodeSize(FormatChar(t)) == SizeOf(t)
    ensures Supported(t) && t.Integer? ==> IsIntegral(FormatChar(t)) && IsSigned(FormatChar(t)) == t.signed
    ensures Supported(t) && t.Enumeration? ==> IsIntegral(FormatChar(t)) && !IsSigned(FormatChar(t))
    ensures Supported(t) && t.Floating? ==> IsFloating(FormatChar(t))
  {
  }

  lemma ScalarPack(t: CType, v: Value)
    requires WellLaid(t) && Conforms(t, v) && Scalar(t)
    ensures Faithful(t, v, PackCode(FormatChar(t), v))
  {
    FormatCharFits(t);
  }

  lemma SupportedFields(l: Layout)
    ensures Supported(Class(l)) <==> l.fields != [] && FirstSupported(l, |l.fields|)
  {
  }

  /** What a field or a nested struct contributes is its memory image exactly when its type is supported. */
  lemma {:induction false} PieceFaithful(k: nat, f: Field, fs: seq<Value>)
    requires k < |fs| && WellLaid(f.ty) && Conforms(f.ty, fs[k])
    ensures Faithful(f.ty, fs[k], Piece(k, f, fs))
    decreases f.ty, 1
  {
    match f.ty
    case Class(l) => ClassFaithful(l, fs[k].fields);
    case Array(elem, count, native) =>
      if !IsBytes(f.ty) {
        EachFaithful(elem, SubClass(f.ty), fs[k].items);
      }
    case _ => ScalarPack(f.ty, fs[k]);
  }

  lemma {:induction false} EachFaithful(elem: CType, sub: Option<ClassDef>, items: seq<Value>)
    requires WellLaid(elem) && forall k | 0 <= k < |items| :: Conforms(elem, items[k])
    requires sub == if elem.Class? then Some(ClassOf(elem.layout)) else None
    ensures var r := RunPackEach(sub, items);
            if elem.Class? && Supported(elem) then r == Some(ElemsImage(elem, items))
            else r.Some? && items != [] ==> |r.value| < Times(|items|, SizeOf(elem))
    decreases elem, |items| + 1
  {
    if items != [] && elem.Class? {
      var last := |items| - 1;
      ClassFaithful(elem.layout, items[last].fields);
      EachFaithful(elem, sub, items[..last]);
      assert items[..last] == [] ==> RunPackEach(sub, items[..last]) == Some([]);
    }
  }

  lemma {:induction false} ClassFaithful(l: Layout, fs: seq<Value>)
    requires LaidOut(l) && ObjConforms(l, fs)
    ensures Faithful(Class(l), VObj(fs), RunPack(ClassOf(l), VObj(fs)))
    decreases l, |fs| + 2
  {
    SupportedFields(l);
    if fs == [] {
      assert ClassOf(l).pack == [];
    } else {
      FieldsFaithful(l, fs, |fs|);
      BatchingIsTransparent(l, fs);
      var b, e := ObjImage(l, fs, |fs|), End(l, |fs|);
      assert b == b[..e] + Zeros(l.size - e);
    }
  }

  lemma {:induction false} FieldsFaithful(l: Layout, fs: seq<Value>, k: nat)
    requires LaidOut(l) && ObjConforms(l, fs) && k <= |fs|
    ensures End(l, k) <= l.size && ZeroFrom(ObjImage(l, fs, k), End(l, k))
    ensures FullIff(FirstSupported(l, k), OneByOne(l, fs, k), ObjImage(l, fs, k)[..End(l, k)])
    decreases l, k + 1
  {
    hide Image, Piece, Supported, WellLaid, Conforms, SizeOf;
    if k > 0 {
      FieldsFaithful(l, fs, k - 1);
      ImageGrows(l, fs, k);
      var f := l.fields[k - 1];
      PieceFaithful(k - 1, f, fs);
      FullAppend(FirstSupported(l, k - 1), OneByOne(l, fs, k - 1), ObjImage(l, fs, k - 1)[..End(l, k - 1)],
                 f.offset - End(l, k - 1), Supported(f.ty), Piece(k - 1, f, fs), Image(f.ty, fs[k - 1]));
    }
  }

  /**
    For every layout and every value of it: the generated pack_wire yields exactly sizeof(T) bytes if and
    only if the layout is supported, and then they are the C++ memory image.
   */
  lemma PackWireIsMemoryImage(l: Layout, fs: seq<Value>)
    requires LaidOut(l) && ObjConforms(l, fs)
    ensures var r := RunPack(ClassOf(l), VObj(fs));
            && (r.Some? && |r.value| == l.size <==> Supported(Class(l)))
            && (Supported(Class(l)) ==> r == Some(Image(Class(l), VObj(fs))))
  {
    ClassFaithful(l, fs);
  }
}
