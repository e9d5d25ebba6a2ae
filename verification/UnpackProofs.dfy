/** The emitted unpack programs read memory images, and the module they live in parses. */
module UnpackProofs {
  import opened Wrappers
  import opened Bytes
  import opened StructFormat
  import opened Schema
  import opened Generator
  import opened PackProofs

  // ---- which generated modules parse -----------------------------------------------------------

  /** Python rejects an unpack statement without a target. */
  predicate Parses(c: ClassDef)
    decreases c
  {
    forall i | 0 <= i < |c.unpack| :: InstrParses(c.unpack[i])
  }

  predicate InstrParses(i: UnpackInstr)
    decreases i
  {
    match i
    case UnpackRun(targets, _) => targets != []
    case UnpackSub(_, sub) => Parses(sub)
    case UnpackEach(_, elem, _) => elem.Some? ==> Parses(elem.value)
  }

  predicate CodeParses(code: seq<UnpackInstr>) {
    forall i | 0 <= i < |code| :: InstrParses(code[i])
  }

  lemma CodeParsesSnoc(code: seq<UnpackInstr>, i: UnpackInstr)
    ensures CodeParses(code + [i]) <==> CodeParses(code) && InstrParses(i)
  {
    var c := code + [i];
    if CodeParses(c) {
      assert InstrParses(c[|code|]);
      forall j | 0 <= j < |code| ensures InstrParses(code[j]) {
        assert c[j] == code[j];
      }
    }
  }

  /** Padding before field `k` (or at the end) with no field of the same format run in front of it. */
  predicate BareGap(l: Layout, k: nat)
    requires k <= |l.fields|
  {
    && End(l, k) < (if k < |l.fields| then l.fields[k].offset else l.size)
    && (k > 0 ==> Nested(l.fields[k - 1].ty))
    && (k < |l.fields| ==> Nested(l.fields[k].ty))
  }

  predicate NoBareGap(l: Layout, k: nat)
    requires k <= |l.fields|
  {
    forall j | 0 <= j < k :: !BareGap(l, j)
  }

  /** No run of padding alone is ever flushed, in this type or in one it contains. */
  predicate Clean(t: CType)
    decreases t
  {
    match t
    case Array(elem, _, _) => elem.Class? ==> Clean(elem)
    case Class(l) =>
      && (l.fields != [] ==> NoBareGap(l, |l.fields|) && !BareGap(l, |l.fields|))
      && forall k {:trigger Clean(l.fields[k].ty)} | 0 <= k < |l.fields| :: Clean(l.fields[k].ty)
    case _ => true
  }

  predicate FirstClean(l: Layout, k: nat)
    requires k <= |l.fields|
  {
    forall j {:trigger Clean(l.fields[j].ty)} | 0 <= j < k :: Clean(l.fields[j].ty)
  }

  /** The pending run has a target unless it is empty or bare padding. */
  predicate Pending(g: Gen, l: Layout, k: nat)
    requires k <= |l.fields|
  {
    if k == 0 || Nested(l.fields[k - 1].ty) then g.items == [] && g.args == [] else g.items != [] && g.args != []
  }

  lemma FlushParses(g: Gen, l: Layout, k: nat, offset: nat)
    requires k <= |l.fields| && Pending(g, l, k)
    ensures var q := Flush(PadTo(g, offset));
            && q.items == [] && q.args == []
            && (CodeParses(q.unpack) <==>
                CodeParses(g.unpack) && !((k == 0 || Nested(l.fields[k - 1].ty)) && offset > g.offset))
  {
    var p := PadTo(g, offset);
    if p.items != [] {
      CodeParsesSnoc(p.unpack, UnpackRun(p.args, Format(p.items)));
    }
  }

  lemma FieldParses(g: Gen, l: Layout, k: nat, sub: Option<ClassDef>)
    requires k < |l.fields| && StartsAfter(l, k) && g.offset == End(l, k) && Pending(g, l, k)
    requires l.fields[k].ty.Class? ==> sub.Some?
    requires var t := l.fields[k].ty; if Nested(t) then InstrParses(NestedUnpack(k, t, sub)) <==> Clean(t) else Clean(t)
    ensures var h := AddField(g, k, l.fields[k], sub);
            && h.offset == End(l, k + 1)
            && Pending(h, l, k + 1)
            && (CodeParses(h.unpack) <==> CodeParses(g.unpack) && !BareGap(l, k) && Clean(l.fields[k].ty))
  {
    hide *;
    if Nested(l.fields[k].ty) {
      NestedFieldParses(g, l, k, sub);
    } else {
      RunFieldParses(g, l, k, sub);
    }
  }

  /** A field of a run emits nothing yet. */
  lemma RunFieldParses(g: Gen, l: Layout, k: nat, sub: Option<ClassDef>)
    requires k < |l.fields| && StartsAfter(l, k) && g.offset == End(l, k) && Pending(g, l, k)
    requires !Nested(l.fields[k].ty) && Clean(l.fields[k].ty)
    ensures var h := AddField(g, k, l.fields[k], sub);
            h.offset == End(l, k + 1) && Pending(h, l, k + 1) && h.unpack == g.unpack && !BareGap(l, k)
  {
    hide Clean, SizeOf;
  }

  lemma NestedFieldParses(g: Gen, l: Layout, k: nat, sub: Option<ClassDef>)
    requires k < |l.fields| && StartsAfter(l, k) && g.offset == End(l, k) && Pending(g, l, k)
    requires Nested(l.fields[k].ty) && (l.fields[k].ty.Class? ==> sub.Some?)
    requires InstrParses(NestedUnpack(k, l.fields[k].ty, sub)) <==> Clean(l.fields[k].ty)
    ensures var h := AddField(g, k, l.fields[k], sub);
            && h.offset == End(l, k + 1) && Pending(h, l, k + 1)
            && (CodeParses(h.unpack) <==> CodeParses(g.unpack) && !BareGap(l, k) && Clean(l.fields[k].ty))
  {
    var f := l.fields[k];
    FlushParses(g, l, k, f.offset);
    hide InstrParses, Clean, SizeOf, CodeParses;
    CodeParsesSnoc(Flush(PadTo(g, f.offset)).unpack, NestedUnpack(k, f.ty, sub));
  }

  lemma {:induction false} PrefixParses(l: Layout, k: nat)
    requires LaidOut(l) && k <= |l.fields|
    ensures var g := Prefix(l.fields, k);
            && g.offset == End(l, k)
            && Pending(g, l, k)
            && (CodeParses(g.unpack) <==> NoBareGap(l, k) && FirstClean(l, k))
    decreases l, k
  {
    hide *;
    if k == 0 {
      NothingParses(l);
    } else {
      PrefixParses(l, k - 1);
      FieldFits(l, k - 1);
      var f := l.fields[k - 1];
      PartParses(f.ty, k - 1);
      FieldParses(Prefix(l.fields, k - 1), l, k - 1, SubClass(f.ty));
      PrefixStep(l.fields, k);
      CleanSnoc(l, k);
    }
  }

  lemma NothingParses(l: Layout)
    ensures var g := Prefix(l.fields, 0);
            g.offset == End(l, 0) && Pending(g, l, 0) && CodeParses(g.unpack) && NoBareGap(l, 0) && FirstClean(l, 0)
  {
  }

  lemma FieldFits(l: Layout, k: nat)
    requires LaidOut(l) && k < |l.fields|
    ensures StartsAfter(l, k) && WellLaid(l.fields[k].ty)
  {
  }

  lemma {:induction false} PartParses(t: CType, k: nat)
    requires WellLaid(t)
    ensures t.Class? ==> SubClass(t).Some?
    ensures if Nested(t) then InstrParses(NestedUnpack(k, t, SubClass(t))) <==> Clean(t) else Clean(t)
    decreases t, 1
  {
    if Nested(t) {
      SubParses(t, k);
    }
  }

  lemma CleanSnoc(l: Layout, k: nat)
    requires 0 < k <= |l.fields|
    ensures NoBareGap(l, k) <==> NoBareGap(l, k - 1) && !BareGap(l, k - 1)
    ensures FirstClean(l, k) <==> FirstClean(l, k - 1) && Clean(l.fields[k - 1].ty)
  {
  }

  lemma {:induction false} SubParses(t: CType, k: nat)
    requires WellLaid(t) && Nested(t)
    ensures InstrParses(NestedUnpack(k, t, SubClass(t))) <==> Clean(t)
    decreases t, 0
  {
    match t
    case Class(l) => GeneratedModuleParses(l);
    case Array(elem, _, _) =>
      if elem.Class? {
        GeneratedModuleParses(elem.layout);
      }
  }

  /** The generated class is valid Python if and only if padding never has to be flushed on its own. */
  lemma {:induction false} GeneratedModuleParses(l: Layout)
    requires LaidOut(l)
    ensures Parses(ClassOf(l)) <==> Clean(Class(l))
    decreases l, |l.fields| + 1
  {
    PrefixParses(l, |l.fields|);
    EndMonotone(l, |l.fields|, |l.fields|);
    var g := Prefix(l.fields, |l.fields|);
    FlushParses(g, l, |l.fields|, l.size);
    assert Parses(ClassOf(l)) <==> CodeParses(ClassOf(l).unpack);
  }

  // ---- what unpacking computes -----------------------------------------------------------------

  function PendingRun(g: Gen, data: seq<byte>, st: Locals): Option<Locals> {
    var vs :- UnpackItems(g.items, data, st.offset);
    if |vs| == |g.args| then Some(Locals(Bind(st.env, g.args, vs), st.offset + Size(g.items))) else None
  }

  /** The locals after the flushed runs and the pending one. */
  function UnpackState(g: Gen, data: seq<byte>): Option<Locals> {
    var st :- RunUnpackCode(g.unpack, data);
    PendingRun(g, data, st)
  }

  lemma UnpackSnoc(code: seq<UnpackInstr>, i: UnpackInstr, data: seq<byte>)
    ensures RunUnpackCode(code + [i], data)
         == if RunUnpackCode(code, data).Some? then RunUnpackInstr(i, data, RunUnpackCode(code, data).value) else None
  {
    var c := code + [i];
    assert c[..|c| - 1] == code && c[|c| - 1] == i;
  }

  lemma RunMeansPending(g: Gen, data: seq<byte>, st: Locals)
    requires AllRenderable(g.items) && g.args != [] && PendingRun(g, data, st).Some?
    ensures RunUnpackRun(g.args, Format(g.items), data, st) == PendingRun(g, data, st)
  {
    FormatMeansItems(g.items, [], data, st.offset);
    var vs := UnpackItems(g.items, data, st.offset).value;
    if |vs| == 1 {
      assert Bind(st.env, g.args[..0], vs[..0]) == st.env;
    }
  }

  lemma EmptyPending(g: Gen, data: seq<byte>, st: Locals)
    requires g.items == [] && g.args == [] && st.offset <= |data|
    ensures PendingRun(g, data, st) == Some(st)
  {
  }

  lemma FlushUnpack(g: Gen, data: seq<byte>, n: nat)
    requires GenOk(g, n) && UnpackState(g, data).Some?
    requires g.items != [] ==> g.args != []
    ensures UnpackState(Flush(g), data) == UnpackState(g, data) == RunUnpackCode(Flush(g).unpack, data)
  {
    var st := RunUnpackCode(g.unpack, data).value;
    if g.items != [] {
      RunMeansPending(g, data, st);
      UnpackSnoc(g.unpack, UnpackRun(g.args, Format(g.items)), data);
      EmptyPending(Flush(g), data, PendingRun(g, data, st).value);
    } else {
      EmptyPending(g, data, st);
    }
  }

  /** One more item in the run binds one more local, or skips padding. */
  lemma ItemUnpack(g: Gen, item: Item, ks: seq<nat>, data: seq<byte>, v: Value)
    requires |ks| == (if TakesValue(item) then 1 else 0) && UnpackState(g, data).Some?
    requires var o := UnpackState(g, data).value.offset;
             o + ItemSize(item) <= |data|
               && (TakesValue(item) ==> UnpackItem(item, data[o..o + ItemSize(item)]) == Some(v))
    ensures var before := UnpackState(g, data).value;
            UnpackState(g.(items := g.items + [item], args := g.args + ks), data)
            == Some(Locals(if TakesValue(item) then before.env[ks[0] := v] else before.env,
                           before.offset + ItemSize(item)))
  {
    var st := RunUnpackCode(g.unpack, data).value;
    UnpackItemsSnoc(g.items, item, data, st.offset, v);
    BindSnoc(st.env, g.args, ks, UnpackItems(g.items, data, st.offset).value, if TakesValue(item) then [v] else []);
  }

  lemma BindSnoc(env: map<nat, Value>, ks: seq<nat>, k: seq<nat>, vs: seq<Value>, v: seq<Value>)
    requires |ks| == |vs| && |k| == |v| <= 1
    ensures Bind(env, ks + k, vs + v) == if k == [] then Bind(env, ks, vs) else Bind(env, ks, vs)[k[0] := v[0]]
  {
    if k == [] {
      assert ks + k == ks && vs + v == vs;
    } else {
      assert (ks + k)[..|ks|] == ks && (vs + v)[..|vs|] == vs;
    }
  }

  function ReadEnv(l: Layout, data: seq<byte>, k: nat): map<nat, Value>
    requires LaidOut(l) && |data| == l.size && k <= |l.fields|
  {
    map j: nat | j < k :: Read(l.fields[j].ty, FieldSlice(l, data, j))
  }

  lemma RunFieldRead(t: CType, b: seq<byte>)
    requires WellLaid(t) && Supported(t) && !Nested(t) && |b| == SizeOf(t)
    ensures ItemSize(RunItem(t)) == SizeOf(t)
    ensures UnpackItem(RunItem(t), b) == Some(Read(t, b))
  {
    if !t.Array? {
      FormatCharFits(t);
    } else {
      assert SizeOf(t.elem) == 1;
    }
  }

  predicate Regular(t: CType) {
    WellLaid(t) && Supported(t) && Clean(t)
  }

  lemma PadUnpack(g: Gen, data: seq<byte>, n: nat, next: nat)
    requires GenOk(g, n) && UnpackState(g, data).Some? && g.offset <= next <= |data|
    requires UnpackState(g, data).value.offset == g.offset
    ensures GenOk(PadTo(g, next), n)
    ensures UnpackState(PadTo(g, next), data) == Some(Locals(UnpackState(g, data).value.env, next))
  {
    if next > g.offset {
      var pad := Pad(next - g.offset);
      TakersSnoc(g.items, pad);
      assert g.args + [] == g.args;
      ItemUnpack(g, pad, [], data, VInt(0));
    }
  }

  /** unpack_wire of `c` reads objects of type `t`. */
  ghost predicate Reads(c: Option<ClassDef>, t: CType) {
    && WellLaid(t) && c.Some? && c.value.wireSize == SizeOf(t)
    && forall b: seq<byte> {:trigger RunUnpack(c.value, b)} | |b| == SizeOf(t) ::
       RunUnpack(c.value, b) == Some(Read(t, b))
  }

  ghost predicate SubReads(t: CType) {
    Nested(t) ==> Reads(SubClass(t), if t.Class? then t else t.elem)
  }

  /** One field: the item of the run, or the flush and the instruction, that yields `v` adds the local `k`. */
  lemma FieldUnpack(g: Gen, f: Field, k: nat, n: nat, data: seq<byte>, env: map<nat, Value>, v: Value)
    requires GenOk(g, n) && k < n && g.offset <= f.offset && f.offset + SizeOf(f.ty) <= |data|
    requires UnpackState(g, data) == Some(Locals(env, g.offset))
    requires Nested(f.ty) && (g.items != [] || g.offset < f.offset) ==> g.args != []
    requires Yields(f, k, data, env, v)
    ensures UnpackState(AddField(g, k, f, SubClass(f.ty)), data) == Some(Locals(env[k := v], f.offset + SizeOf(f.ty)))
  {
    hide *;
    PadUnpack(g, data, n, f.offset);
    var p := PadTo(g, f.offset);
    PaddedField(g, k, f);
    if Nested(f.ty) {
      FlushedFieldUnpack(p, f, k, n, data, env, v);
    } else {
      RunFieldUnpack(p, f, k, data, env, v);
    }
  }

  lemma PaddedField(g: Gen, k: nat, f: Field)
    requires g.offset <= f.offset
    ensures var p, sub := PadTo(g, f.offset), SubClass(f.ty);
            && (f.ty.Class? ==> sub.Some?)
            && AddField(g, k, f, sub)
               == (if Nested(f.ty) then AddNested(Flush(p), k, f.ty, sub) else AddToRun(p, k, f.ty))
            && (p.items != [] ==> g.items != [] || g.offset < f.offset) && p.args == g.args
  {
  }

  lemma RunFieldUnpack(p: Gen, f: Field, k: nat, data: seq<byte>, env: map<nat, Value>, v: Value)
    requires f.offset + SizeOf(f.ty) <= |data| && !Nested(f.ty)
    requires UnpackState(p, data) == Some(Locals(env, f.offset)) && Yields(f, k, data, env, v)
    ensures UnpackState(AddToRun(p, k, f.ty), data) == Some(Locals(env[k := v], f.offset + SizeOf(f.ty)))
  {
    hide RunUnpackCode, UnpackItems, Size, UnpackItem, SizeOf, RenderAll;
    ItemUnpack(p, RunItem(f.ty), [k], data, v);
  }

  lemma FlushedFieldUnpack(p: Gen, f: Field, k: nat, n: nat, data: seq<byte>, env: map<nat, Value>, v: Value)
    requires GenOk(p, n) && f.offset + SizeOf(f.ty) <= |data| && Nested(f.ty)
    requires UnpackState(p, data) == Some(Locals(env, f.offset)) && (p.items != [] ==> p.args != [])
    requires Yields(f, k, data, env, v)
    ensures UnpackState(AddNested(Flush(p), k, f.ty, SubClass(f.ty)), data)
         == Some(Locals(env[k := v], f.offset + SizeOf(f.ty)))
  {
    hide RunUnpackInstr, RunUnpackCode, UnpackItems, Size, UnpackState;
    FlushUnpack(p, data, n);
    NestedFieldUnpack(Flush(p), f.ty, k, data, Locals(env, f.offset), v);
  }

  lemma NestedFieldUnpack(q: Gen, t: CType, k: nat, data: seq<byte>, st: Locals, v: Value)
    requires Nested(t) && q.items == [] && q.args == [] && RunUnpackCode(q.unpack, data) == Some(st)
    requires st.offset + SizeOf(t) <= |data|
    requires RunUnpackInstr(NestedUnpack(k, t, SubClass(t)), data, st)
             == Some(Locals(st.env[k := v], st.offset + SizeOf(t)))
    ensures UnpackState(AddNested(q, k, t, SubClass(t)), data) == Some(Locals(st.env[k := v], st.offset + SizeOf(t)))
  {
    hide RunUnpackInstr, RunUnpackCode, UnpackItems, Size;
    UnpackSnoc(q.unpack, NestedUnpack(k, t, SubClass(t)), data);
    EmptyPending(AddNested(q, k, t, SubClass(t)), data, Locals(st.env[k := v], st.offset + SizeOf(t)));
  }

  predicate Yields(f: Field, k: nat, data: seq<byte>, env: map<nat, Value>, v: Value)
    requires f.offset + SizeOf(f.ty) <= |data|
  {
    if Nested(f.ty) then
      RunUnpackInstr(NestedUnpack(k, f.ty, SubClass(f.ty)), data, Locals(env, f.offset))
      == Some(Locals(env[k := v], f.offset + SizeOf(f.ty)))
    else
      && ItemSize(RunItem(f.ty)) == SizeOf(f.ty)
      && UnpackItem(RunItem(f.ty), data[f.offset..f.offset + SizeOf(f.ty)]) == Some(v)
  }

  lemma FieldYields(f: Field, k: nat, data: seq<byte>, env: map<nat, Value>)
    requires f.offset + SizeOf(f.ty) <= |data| && WellLaid(f.ty) && Supported(f.ty) && SubReads(f.ty)
    ensures Yields(f, k, data, env, Read(f.ty, data[f.offset..f.offset + SizeOf(f.ty)]))
  {
    var st := Locals(env, f.offset);
    hide RunUnpack, Read, ClassOf, RunUnpackInstr, UnpackItem, Times;
    if f.ty.Class? {
      SubInstrReads(k, f.ty, SubClass(f.ty), data, st);
    } else if Nested(f.ty) {
      EachInstrReads(k, f.ty, SubClass(f.ty), data, st);
    } else {
      RunFieldRead(f.ty, data[f.offset..f.offset + SizeOf(f.ty)]);
    }
  }

  lemma {:induction false} SubInstrReads(k: nat, t: CType, c: Option<ClassDef>, data: seq<byte>, st: Locals)
    requires Reads(c, t) && st.offset + SizeOf(t) <= |data|
    ensures RunUnpackInstr(UnpackSub(k, c.value), data, st)
         == Some(Locals(st.env[k := Read(t, data[st.offset..st.offset + SizeOf(t)])], st.offset + SizeOf(t)))
  {
    hide RunUnpack, Read;
  }

  lemma ArrayShape(t: CType, c: Option<ClassDef>, b: seq<byte>)
    requires t.Array? && Nested(t) && WellLaid(t) && Reads(c, t.elem) && |b| == SizeOf(t)
    ensures c.Some? && SizeOf(t) == Times(t.count, SizeOf(t.elem)) && c.value.wireSize == SizeOf(t.elem)
    ensures WellLaid(t.elem) && Read(t, b) == VList(ReadElems(t.elem, t.count, b))
  {
    hide RunUnpack, ReadElems, Times;
  }

  lemma EachInstrReads(k: nat, t: CType, c: Option<ClassDef>, data: seq<byte>, st: Locals)
    requires t.Array? && Nested(t) && WellLaid(t) && Reads(c, t.elem) && st.offset + SizeOf(t) <= |data|
    ensures RunUnpackInstr(UnpackEach(k, c, t.count), data, st)
         == Some(Locals(st.env[k := Read(t, data[st.offset..st.offset + SizeOf(t)])], st.offset + SizeOf(t)))
  {
    hide *;
    var b := data[st.offset..st.offset + SizeOf(t)];
    ArrayShape(t, c, b);
    EachUnpack(t.elem, c, t.count, data, st.offset, b);
    EachInstrYields(k, c.value, t.count, data, st, ReadElems(t.elem, t.count, b));
  }

  lemma EachInstrYields(k: nat, c: ClassDef, count: nat, data: seq<byte>, st: Locals, vs: seq<Value>)
    requires RunUnpackEach(Some(c), count, data, st.offset) == Some(vs)
    ensures RunUnpackInstr(UnpackEach(k, Some(c), count), data, st)
         == Some(Locals(st.env[k := VList(vs)], st.offset + Times(count, c.wireSize)))
  {
  }

  lemma NoneRead(t: CType, c: Option<ClassDef>, data: seq<byte>, offset: nat, b: seq<byte>)
    requires WellLaid(t) && |b| == Times(0, SizeOf(t))
    ensures RunUnpackEach(c, 0, data, offset) == Some(ReadElems(t, 0, b))
  {
  }

  /** The last element: the class reads the bytes behind the others. */
  lemma OneMoreRead(t: CType, c: Option<ClassDef>, count: nat, data: seq<byte>, offset: nat, b: seq<byte>, done: nat)
    requires count > 0 && Reads(c, t)
    requires done == Times(count - 1, SizeOf(t)) && |b| == Times(count, SizeOf(t)) == SizeOf(t) + done
    requires offset + |b| <= |data| && b[done..|b|] == data[offset + done..offset + |b|]
    requires RunUnpackEach(c, count - 1, data, offset) == Some(ReadElems(t, count - 1, b[..done]))
    ensures RunUnpackEach(c, count, data, offset) == Some(ReadElems(t, count, b))
  {
    hide RunUnpack, Read, SizeOf, WellLaid, Times;
    assert RunUnpack(c.value, b[done..|b|]) == Some(Read(t, b[done..|b|]));
  }

  lemma {:induction false} EachUnpack(t: CType, c: Option<ClassDef>, count: nat, data: seq<byte>, offset: nat,
      b: seq<byte>)
    requires Reads(c, t) && offset + Times(count, SizeOf(t)) <= |data|
             && b == data[offset..offset + Times(count, SizeOf(t))]
    ensures RunUnpackEach(c, count, data, offset) == Some(ReadElems(t, count, b))
    decreases count
  {
    hide RunUnpack, Read, SizeOf, WellLaid, ReadElems, RunUnpackEach;
    var done := if count > 0 then Times(count - 1, SizeOf(t)) else 0;
    assert count > 0 ==> |b| == SizeOf(t) + done;
    hide Times;
    if count > 0 {
      SubSlice(data, offset, offset + |b|, done, |b|);
      SubSlice(data, offset, offset + |b|, 0, done);
      EachUnpack(t, c, count - 1, data, offset, b[..done]);
      OneMoreRead(t, c, count, data, offset, b, done);
    } else {
      NoneRead(t, c, data, offset, b);
    }
  }

  /** What the step over field `k` needs: a nested field never meets bare padding, and nested classes read. */
  ghost predicate FieldOk(l: Layout, k: nat)
    requires k < |l.fields|
  {
    var g, f := Prefix(l.fields, k), l.fields[k];
    && WellLaid(f.ty) && Supported(f.ty) && SubReads(f.ty)
    && g.offset == End(l, k) <= f.offset && End(l, k + 1) <= l.size
    && (Nested(f.ty) && (g.items != [] || g.offset < f.offset) ==> g.args != [])
  }

  ghost predicate AllFieldsOk(l: Layout) {
    forall j | 0 <= j < |l.fields| :: FieldOk(l, j)
  }

  lemma {:induction false} PrefixUnpack(l: Layout, data: seq<byte>, k: nat)
    requires LaidOut(l) && |data| == l.size && k <= |l.fields|
    requires AllFieldsOk(l)
    ensures UnpackState(Prefix(l.fields, k), data) == Some(Locals(ReadEnv(l, data, k), End(l, k)))
    decreases k
  {
    hide *;
    if k == 0 {
      NothingUnpacked(l, data);
    } else {
      PrefixUnpack(l, data, k - 1);
      EachFieldOk(l, k - 1);
      PrefixStep(l.fields, k);
      PrefixGenOk(l.fields, k - 1);
      StepUnpack(l, data, k, Prefix(l.fields, k - 1));
    }
  }

  lemma NothingUnpacked(l: Layout, data: seq<byte>)
    requires LaidOut(l) && |data| == l.size
    ensures UnpackState(Prefix(l.fields, 0), data) == Some(Locals(ReadEnv(l, data, 0), End(l, 0)))
  {
    assert ReadEnv(l, data, 0) == map[];
  }

  lemma EachFieldOk(l: Layout, k: nat)
    requires AllFieldsOk(l) && k < |l.fields|
    ensures FieldOk(l, k)
  {
  }

  lemma StepUnpack(l: Layout, data: seq<byte>, k: nat, g: Gen)
    requires LaidOut(l) && |data| == l.size && 0 < k <= |l.fields| && FieldOk(l, k - 1)
    requires g == Prefix(l.fields, k - 1) && GenOk(g, |l.fields|)
    requires UnpackState(g, data) == Some(Locals(ReadEnv(l, data, k - 1), End(l, k - 1)))
    ensures var h := AddField(g, k - 1, l.fields[k - 1], SubClass(l.fields[k - 1].ty));
            UnpackState(h, data) == Some(Locals(ReadEnv(l, data, k), End(l, k)))
  {
    hide *;
    var f, env := l.fields[k - 1], ReadEnv(l, data, k - 1);
    FieldLies(l, k - 1, data);
    FieldYields(f, k - 1, data, env);
    FieldUnpack(g, f, k - 1, |l.fields|, data, env, Read(f.ty, FieldSlice(l, data, k - 1)));
    ReadEnvSnoc(l, data, k);
  }

  lemma FieldLies(l: Layout, k: nat, data: seq<byte>)
    requires LaidOut(l) && |data| == l.size && k < |l.fields| && FieldOk(l, k)
    ensures Ordered(l)
    ensures var g, f := Prefix(l.fields, k), l.fields[k];
            && WellLaid(f.ty) && Supported(f.ty) && SubReads(f.ty)
            && g.offset == End(l, k) <= f.offset && End(l, k + 1) == f.offset + SizeOf(f.ty) <= |data|
            && (Nested(f.ty) && (g.items != [] || g.offset < f.offset) ==> g.args != [])
            && FieldSlice(l, data, k) == data[f.offset..f.offset + SizeOf(f.ty)]
  {
    hide Prefix, WellLaid, Supported, SubReads, SizeOf;
  }

  lemma ReadEnvSnoc(l: Layout, data: seq<byte>, k: nat)
    requires LaidOut(l) && |data| == l.size && 0 < k <= |l.fields|
    ensures ReadEnv(l, data, k)
            == ReadEnv(l, data, k - 1)[k - 1 := Read(l.fields[k - 1].ty, FieldSlice(l, data, k - 1))]
  {
  }

  lemma {:induction false} FieldIsOk(l: Layout, k: nat)
    requires Regular(Class(l)) && k < |l.fields|
    ensures FieldOk(l, k)
    decreases l, 0
  {
    PrefixParses(l, k);
    EndMonotone(l, k + 1, |l.fields|);
    assert StartsAfter(l, k) && !BareGap(l, k);
    var t := l.fields[k].ty;
    assert WellLaid(t) && Supported(t) && Clean(t);
    match t
    case Class(s) => ClassReads(s);
    case Array(elem, _, _) =>
      if !IsBytes(t) {
        ClassReads(elem.layout);
      }
    case _ =>
  }

  lemma {:induction false} ClassReads(l: Layout)
    requires Regular(Class(l))
    ensures Reads(Some(ClassOf(l)), Class(l))
    decreases l, 1
  {
    forall j | 0 <= j < |l.fields| ensures FieldOk(l, j) {
      FieldIsOk(l, j);
    }
    forall b: seq<byte> | |b| == l.size ensures RunUnpack(ClassOf(l), b) == Some(Read(Class(l), b)) {
      ClassUnpackFrom(l, b);
    }
  }

  lemma ClassUnpackFrom(l: Layout, data: seq<byte>)
    requires Regular(Class(l)) && |data| == l.size
    requires AllFieldsOk(l)
    ensures RunUnpack(ClassOf(l), data) == Some(Read(Class(l), data))
  {
    var n := |l.fields|;
    PrefixUnpack(l, data, n);
    PrefixGenOk(l.fields, n);
    PrefixParses(l, n);
    EndMonotone(l, n, n);
    var g := Prefix(l.fields, n);
    PadUnpack(g, data, n, l.size);
    assert !BareGap(l, n);
    FlushUnpack(PadTo(g, l.size), data, n);
    Collect(l, data);
  }

  lemma Collect(l: Layout, data: seq<byte>)
    requires LaidOut(l) && |data| == l.size
    requires RunUnpackCode(ClassOf(l).unpack, data) == Some(Locals(ReadEnv(l, data, |l.fields|), l.size))
    ensures RunUnpack(ClassOf(l), data) == Some(VObj(ReadFields(l, data)))
  {
    var r := RunUnpack(ClassOf(l), data);
    assert r.Some? by {
      forall k: nat | k < |l.fields| ensures k in ReadEnv(l, data, |l.fields|) {
      }
    }
    assert r.value.fields == ReadFields(l, data);
  }

  /** unpack_wire reads every field at its offset. */
  lemma UnpackWireReadsMemory(l: Layout, data: seq<byte>)
    requires Regular(Class(l)) && |data| == l.size
    ensures RunUnpack(ClassOf(l), data) == Some(Read(Class(l), data))
  {
    ClassReads(l);
  }

  // ---- byte order ------------------------------------------------------------------------------

  /** pack_wire puts byte `i` of an integer field, of weight 256^i, at its offset plus `i`. */
  lemma PackedLittleEndian(l: Layout, fs: seq<Value>, k: nat, i: nat)
    requires LaidOut(l) && Supported(Class(l)) && ObjConforms(l, fs)
    requires k < |l.fields| && IsWhole(l.fields[k].ty) && i < l.fields[k].ty.size
    ensures var r, f := RunPack(ClassOf(l), VObj(fs)), l.fields[k];
            && r.Some? && |r.value| == l.size && f.offset + i < l.size && Conforms(f.ty, fs[k])
            && r.value[f.offset + i] == (Unsigned(f.ty.size, fs[k].i) / Pow256(i)) % 256
  {
    PackWireIsMemoryImage(l, fs);
    IntegerStored(l, fs, k, i);
    hide Image, Supported, RunPack, ClassOf;
  }

  /** unpack_wire reads an integer field as the number, within its range, that has these bytes. */
  lemma UnpackedLittleEndian(l: Layout, data: seq<byte>, k: nat)
    requires Regular(Class(l)) && |data| == l.size && k < |l.fields| && IsWhole(l.fields[k].ty)
    ensures var v, t, o := RunUnpack(ClassOf(l), data), l.fields[k].ty, l.fields[k].offset;
            && v.Some? && v.value.VObj? && |v.value.fields| == |l.fields| && o + t.size <= l.size
            && var n := v.value.fields[k];
               && n.VInt? && InRange(t.size, t.Integer? && t.signed, n.i)
               && forall i | 0 <= i < t.size :: data[o + i] == (Unsigned(t.size, n.i) / Pow256(i)) % 256
  {
    hide *;
    UnpackWireReadsMemory(l, data);
    RegularField(l, k);
    FieldRead(l, data, k);
    WholeFieldRead(l, data, k);
  }

  /** unpack_wire reads a bool as true exactly if its byte is not zero. */
  lemma UnpackedFlag(l: Layout, data: seq<byte>, k: nat)
    requires Regular(Class(l)) && |data| == l.size && k < |l.fields| && l.fields[k].ty == Boolean
    ensures var v, o := RunUnpack(ClassOf(l), data), l.fields[k].offset;
            && v.Some? && v.value.VObj? && |v.value.fields| == |l.fields| && o < l.size
            && v.value.fields[k] == VBool(data[o] != 0)
  {
    UnpackWireReadsMemory(l, data);
    RegularField(l, k);
    FieldRead(l, data, k);
    hide RunUnpack, ClassOf, Regular, FieldSlice, ReadFields, LaidOut;
  }

  lemma WholeFieldRead(l: Layout, data: seq<byte>, k: nat)
    requires LaidOut(l) && |data| == l.size && k < |l.fields| && WellLaid(l.fields[k].ty) && IsWhole(l.fields[k].ty)
    requires End(l, k + 1) <= l.size
    requires FieldSlice(l, data, k) == data[l.fields[k].offset..End(l, k + 1)]
    requires ReadFields(l, data)[k] == Read(l.fields[k].ty, FieldSlice(l, data, k))
    ensures var t, o, n := l.fields[k].ty, l.fields[k].offset, ReadFields(l, data)[k];
            && o + t.size <= l.size && n.VInt? && InRange(t.size, t.Integer? && t.signed, n.i)
            && forall i | 0 <= i < t.size :: data[o + i] == (Unsigned(t.size, n.i) / Pow256(i)) % 256
  {
    var t, s := l.fields[k].ty, FieldSlice(l, data, k);
    hide Read, FieldSlice, ReadFields, WellLaid, LaidOut, InRange, Unsigned, Pow256;
    WholeRead(t, s);
    assert forall i | 0 <= i < t.size :: s[i] == data[l.fields[k].offset + i];
  }

  lemma RegularField(l: Layout, k: nat)
    requires Regular(Class(l)) && k < |l.fields|
    ensures LaidOut(l) && WellLaid(l.fields[k].ty)
  {
  }

  lemma FieldRead(l: Layout, data: seq<byte>, k: nat)
    requires LaidOut(l) && |data| == l.size && k < |l.fields|
    ensures End(l, k + 1) <= l.size && Read(Class(l), data) == VObj(ReadFields(l, data))
    ensures FieldSlice(l, data, k) == data[l.fields[k].offset..End(l, k + 1)]
    ensures ReadFields(l, data)[k] == Read(l.fields[k].ty, FieldSlice(l, data, k))
  {
    EndMonotone(l, k + 1, |l.fields|);
  }

  lemma WholeRead(t: CType, s: seq<byte>)
    requires WellLaid(t) && IsWhole(t) && |s| == t.size
    ensures Read(t, s).VInt? && InRange(t.size, t.Integer? && t.signed, Read(t, s).i)
    ensures forall i | 0 <= i < t.size :: s[i] == (Unsigned(t.size, Read(t, s).i) / Pow256(i)) % 256
  {
    var signed := t.Integer? && t.signed;
    var v := DecodeInt(signed, s);
    IntWrite(signed, s);
    Pow256Even(t.size);
    forall i | 0 <= i < t.size ensures s[i] == (Unsigned(t.size, v) / Pow256(i)) % 256 {
      EncodedByte(t.size, v, i);
    }
  }

  // ---- both directions -----------------------------------------------------------------------

  /**
    unpack_wire(pack_wire(v)) is `v` with byte arrays cut or filled to their length, and `v` itself iff they are
    exact.
   */
  lemma UnpackOfPack(l: Layout, fs: seq<Value>)
    requires Regular(Class(l)) && ObjConforms(l, fs)
    ensures var r := RunPack(ClassOf(l), VObj(fs));
            && r.Some?
            && RunUnpack(ClassOf(l), r.value) == Some(Normal(Class(l), VObj(fs)))
            && (RunUnpack(ClassOf(l), r.value) == Some(VObj(fs)) <==> Exact(Class(l), VObj(fs)))
  {
    PackWireIsMemoryImage(l, fs);
    UnpackWireReadsMemory(l, Image(Class(l), VObj(fs)));
    ReadOfImage(Class(l), VObj(fs));
    NormalIffExact(Class(l), VObj(fs));
  }

  /** pack_wire(unpack_wire(b)) is `b` up to padding and the bytes of bools. */
  lemma PackOfUnpack(l: Layout, b: seq<byte>)
    requires Regular(Class(l)) && |b| == l.size
    ensures var r := RunUnpack(ClassOf(l), b);
            && r.Some?
            && RunPack(ClassOf(l), r.value) == Some(Canonical(Class(l), b))
  {
    UnpackWireReadsMemory(l, b);
    ImageOfRead(Class(l), b);
    PackWireIsMemoryImage(l, ReadFields(l, b));
  }
}
