/**
  The binding generator: from a layout to a Python class with a pack and an unpack program.
  Fields are named by their position in the declaration.
 */
module Generator {
  import opened Wrappers
  import opened Bytes
  import opened StructFormat
  import opened Schema

  // ---- emitted programs ----------------------------------------------------------------------

  datatype PackInstr =
    | PackRun(fmt: string, args: seq<nat>)                        // data.extend(struct.pack(fmt, ...))
    | PackSub(field: nat, sub: ClassDef)                          // data.extend(self.field.pack_wire())
    | PackEach(field: nat, elem: Option<ClassDef>, rawToo: bool)  // for item in self.field: ...

  datatype UnpackInstr =
    | UnpackRun(targets: seq<nat>, fmt: string)                   // a, b = struct.unpack_from(fmt, data, offset)
    | UnpackSub(field: nat, sub: ClassDef)                        // field = Sub.unpack_wire(data[offset:...])
    | UnpackEach(field: nat, elem: Option<ClassDef>, count: nat)  // for _ in range(count): ...

  datatype ClassDef = ClassDef(name: string, wireSize: nat, arity: nat, pack: seq<PackInstr>, unpack: seq<UnpackInstr>)

  // ---- their meaning -------------------------------------------------------------------------

  predicate Below(ks: seq<nat>, n: nat) {
    forall i | 0 <= i < |ks| :: ks[i] < n
  }

  function Gather(fs: seq<Value>, ks: seq<nat>): (vs: seq<Value>)
    requires Below(ks, |fs|)
    ensures |vs| == |ks|
  {
    seq(|ks|, i requires 0 <= i < |ks| => fs[ks[i]])
  }

  function RunPack(c: ClassDef, v: Value): Option<seq<byte>>
    decreases c, 0
  {
    if v.VObj? && |v.fields| == c.arity then RunPackCode(c.pack, v.fields) else None
  }

  function RunPackCode(code: seq<PackInstr>, fs: seq<Value>): Option<seq<byte>>
    decreases code, 0
  {
    if code == [] then Some([])
    else Cat(RunPackCode(code[..|code| - 1], fs), RunPackInstr(code[|code| - 1], fs))
  }

  function RunPackInstr(i: PackInstr, fs: seq<Value>): Option<seq<byte>>
    decreases i, 0
  {
    match i
    case PackRun(fmt, args) => RunPackRun(fmt, args, fs)
    case PackSub(k, sub) => if k < |fs| then RunPack(sub, fs[k]) else None
    case PackEach(k, elem, rawToo) =>
      if |fs| <= k then None
      else if fs[k].VBytes? && rawToo then Some(fs[k].data)
      else if fs[k].VList? then RunPackEach(elem, fs[k].items)
      else None
  }

  function RunPackRun(fmt: string, args: seq<nat>, fs: seq<Value>): Option<seq<byte>> {
    if Below(args, |fs|) then Pack(fmt, Gather(fs, args)) else None
  }

  function RunPackEach(elem: Option<ClassDef>, items: seq<Value>): Option<seq<byte>>
    decreases elem, |items|
  {
    if items == [] then Some([])
    else if elem.None? then None
    else Cat(RunPackEach(elem, items[..|items| - 1]), RunPack(elem.value, items[|items| - 1]))
  }

  /** The local variables of unpack_wire. */
  datatype Locals = Locals(env: map<nat, Value>, offset: nat)

  function Bind(env: map<nat, Value>, ks: seq<nat>, vs: seq<Value>): map<nat, Value>
    requires |ks| == |vs|
  {
    if ks == [] then env
    else Bind(env, ks[..|ks| - 1], vs[..|vs| - 1])[ks[|ks| - 1] := vs[|vs| - 1]]
  }

  /** data[lo:hi], which Python cuts at the end of the data. */
  function Slice(data: seq<byte>, lo: nat, hi: nat): seq<byte>
    requires lo <= hi
  {
    data[if lo < |data| then lo else |data|..if hi < |data| then hi else |data|]
  }

  function RunUnpack(c: ClassDef, data: seq<byte>): Option<Value>
    decreases c, 0
  {
    var st :- RunUnpackCode(c.unpack, data);
    if forall k: nat | k < c.arity :: k in st.env then
      Some(VObj(seq(c.arity, k requires 0 <= k < c.arity => st.env[k])))
    else None
  }

  function RunUnpackCode(code: seq<UnpackInstr>, data: seq<byte>): Option<Locals>
    decreases code, 0
  {
    if code == [] then Some(Locals(map[], 0))
    else
      var st :- RunUnpackCode(code[..|code| - 1], data);
      RunUnpackInstr(code[|code| - 1], data, st)
  }

  function RunUnpackInstr(i: UnpackInstr, data: seq<byte>, st: Locals): Option<Locals>
    decreases i, 0
  {
    match i
    case UnpackRun(targets, fmt) => RunUnpackRun(targets, fmt, data, st)
    case UnpackSub(k, sub) =>
      var v :- RunUnpack(sub, Slice(data, st.offset, st.offset + sub.wireSize));
      Some(Locals(st.env[k := v], st.offset + sub.wireSize))
    case UnpackEach(k, elem, count) =>
      var vs :- RunUnpackEach(elem, count, data, st.offset);
      Some(Locals(st.env[k := VList(vs)], st.offset + Times(count, if elem.Some? then elem.value.wireSize else 0)))
  }

  /** No target at all is a syntax error; one target takes element 0 of the tuple. */
  function RunUnpackRun(targets: seq<nat>, fmt: string, data: seq<byte>, st: Locals): Option<Locals> {
    if targets == [] then None
    else
      var vs :- Unpack(fmt, data, st.offset);
      var n :- CalcSize(fmt);
      if |targets| == 1 && |vs| >= 1 then Some(Locals(st.env[targets[0] := vs[0]], st.offset + n))
      else if |targets| == |vs| then Some(Locals(Bind(st.env, targets, vs), st.offset + n))
      else None
  }

  function RunUnpackEach(elem: Option<ClassDef>, count: nat, data: seq<byte>, offset: nat): Option<seq<Value>>
    decreases elem, count
  {
    if count == 0 then Some([])
    else if elem.None? then None
    else
      var size := elem.value.wireSize;
      var vs :- RunUnpackEach(elem, count - 1, data, offset);
      var o := offset + Times(count - 1, size);
      var v :- RunUnpack(elem.value, Slice(data, o, o + size));
      Some(vs + [v])
  }

  // ---- generation ----------------------------------------------------------------------------

  function FormatChar(t: CType): (c: char)
    ensures Plain(c)
  {
    match t
    case Boolean => '?'
    case Integer(size, signed) =>
      if size == 1 then (if signed then 'b' else 'B')
      else if size == 2 then (if signed then 'h' else 'H')
      else if size == 4 then (if signed then 'i' else 'I')
      else if size == 8 then (if signed then 'q' else 'Q')
      else '?'
    case Floating(size) => if size == 4 then 'f' else if size == 8 then 'd' else '?'
    case Enumeration(size) => if size == 1 then 'B' else if size == 2 then 'H' else if size == 8 then 'Q' else '?'
    case _ => '?'
  }

  /** Fields that end the current format run. */
  predicate Nested(t: CType) {
    t.Class? || (t.Array? && !IsBytes(t))
  }

  /** What generate_struct accumulates while it walks the fields; the format text is Format(items). */
  datatype Gen = Gen(items: seq<Item>, args: seq<nat>, pack: seq<PackInstr>, unpack: seq<UnpackInstr>, offset: nat)

  const START := Gen([], [], [], [], 0)

  function Flush(g: Gen): Gen {
    if g.items != [] then
      Gen([], [], g.pack + [PackRun(Format(g.items), g.args)], g.unpack + [UnpackRun(g.args, Format(g.items))],
          g.offset)
    else g
  }

  function PadTo(g: Gen, offset: nat): Gen {
    if offset > g.offset then g.(items := g.items + [Pad(offset - g.offset)], offset := offset) else g
  }

  /** The format item of a field inside a run. */
  function RunItem(t: CType): Item {
    if t.Array? then Raw(t.count) else Code(FormatChar(t))
  }

  function AddField(g: Gen, k: nat, f: Field, sub: Option<ClassDef>): Gen
    requires f.ty.Class? ==> sub.Some?
  {
    var p := PadTo(g, f.offset);
    if Nested(f.ty) then AddNested(Flush(p), k, f.ty, sub) else AddToRun(p, k, f.ty)
  }

  function AddToRun(g: Gen, k: nat, t: CType): Gen {
    g.(items := g.items + [RunItem(t)], args := g.args + [k], offset := g.offset + SizeOf(t))
  }

  function AddNested(g: Gen, k: nat, t: CType, sub: Option<ClassDef>): Gen
    requires t.Class? ==> sub.Some?
    requires Nested(t)
  {
    g.(pack := g.pack + [NestedPack(k, t, sub)], unpack := g.unpack + [NestedUnpack(k, t, sub)],
       offset := g.offset + SizeOf(t))
  }

  function NestedPack(k: nat, t: CType, sub: Option<ClassDef>): PackInstr
    requires Nested(t) && (t.Class? ==> sub.Some?)
  {
    if t.Class? then PackSub(k, sub.value) else PackEach(k, sub, t.native)
  }

  function NestedUnpack(k: nat, t: CType, sub: Option<ClassDef>): UnpackInstr
    requires Nested(t) && (t.Class? ==> sub.Some?)
  {
    if t.Class? then UnpackSub(k, sub.value) else UnpackEach(k, sub, t.count)
  }

  function Prefix(fields: seq<Field>, k: nat): Gen
    requires k <= |fields|
    decreases fields, k
  {
    if k == 0 then START
    else AddField(Prefix(fields, k - 1), k - 1, fields[k - 1], SubClass(fields[k - 1].ty))
  }

  /** The class that stands for a nested struct, or for the elements of an array of structs. */
  function SubClass(t: CType): Option<ClassDef>
    decreases t
  {
    match t
    case Class(l) => Some(ClassOf(l))
    case Array(elem, _, _) => if elem.Class? then Some(ClassOf(elem.layout)) else None
    case _ => None
  }

  /** The whole class: trailing padding and a last flush, nothing at all for a struct without fields. */
  function ClassOf(l: Layout): (c: ClassDef)
    ensures c.name == l.name && c.wireSize == l.size && c.arity == |l.fields|
    decreases l
  {
    var g := Finish(Prefix(l.fields, |l.fields|), l);
    ClassDef(l.name, l.size, |l.fields|, g.pack, g.unpack)
  }

  function Finish(g: Gen, l: Layout): Gen {
    if l.fields == [] then g else Flush(PadTo(g, l.size))
  }

  lemma FormatIsEmpty(items: seq<Item>)
    ensures Format(items) == "<" <==> items == []
  {
    if items != [] {
      FormatSnoc(items[..|items| - 1], items[|items| - 1]);
      assert items == items[..|items| - 1] + [items[|items| - 1]];
    }
  }

  lemma NextField(fields: seq<Field>, k: nat, g: Gen)
    requires k < |fields| && Prefix(fields, k) == g
    ensures Prefix(fields, k + 1) == AddField(g, k, fields[k], SubClass(fields[k].ty))
  {
  }

  lemma ClassIsFinished(l: Layout)
    ensures Prefix(l.fields, 0) == START
    ensures var g := Finish(Prefix(l.fields, |l.fields|), l);
            ClassOf(l) == ClassDef(l.name, l.size, |l.fields|, g.pack, g.unpack)
  {
  }

  /** The flush_format closure. */
  method FlushFormat(fmt: string, args: seq<nat>, pack: seq<PackInstr>, unpack: seq<UnpackInstr>, ghost g: Gen)
    returns (fmt': string, args': seq<nat>, pack': seq<PackInstr>, unpack': seq<UnpackInstr>)
    requires fmt == Format(g.items) && args == g.args && pack == g.pack && unpack == g.unpack
    ensures Gen(Flush(g).items, args', pack', unpack', g.offset) == Flush(g) && fmt' == Format(Flush(g).items)
  {
    fmt', args', pack', unpack' := fmt, args, pack, unpack;
    FormatIsEmpty(g.items);
    if fmt != "<" {
      pack' := pack + [PackRun(fmt, args)];
      unpack' := unpack + [UnpackRun(args, fmt)];
      fmt', args' := "<", [];
    }
  }

  /** The padding in front of an offset. */
  method PadFormat(fmt: string, current: nat, offset: nat, ghost g: Gen) returns (fmt': string, current': nat)
    requires fmt == Format(g.items) && current == g.offset
    ensures fmt' == Format(PadTo(g, offset).items) && current' == PadTo(g, offset).offset
  {
    fmt', current' := fmt, current;
    if offset > current {
      FormatSnoc(g.items, Pad(offset - current));
      fmt' := fmt + (Decimal(offset - current) + "x");
      current' := offset;
    }
  }

  /** The mutable strings, lists and offset of generate_struct are those of `g`. */
  ghost predicate Accumulated(g: Gen, fmt: string, args: seq<nat>, pack: seq<PackInstr>, unpack: seq<UnpackInstr>,
      offset: nat) {
    fmt == Format(g.items) && g == Gen(g.items, args, pack, unpack, offset)
  }

  /** One field: padding, then a flush and a nested part, or one more item of the run. */
  method EmitField(fmt: string, args: seq<nat>, pack: seq<PackInstr>, unpack: seq<UnpackInstr>, offset: nat,
                   k: nat, f: Field, sub: Option<ClassDef>, ghost g: Gen)
    returns (fmt': string, args': seq<nat>, pack': seq<PackInstr>, unpack': seq<UnpackInstr>, offset': nat)
    requires f.ty.Class? ==> sub.Some?
    requires Accumulated(g, fmt, args, pack, unpack, offset)
    ensures Accumulated(AddField(g, k, f, sub), fmt', args', pack', unpack', offset')
  {
    hide Format, RenderAll, Decimal, SizeOf, FormatChar;
    var t := f.ty;
    fmt', offset' := PadFormat(fmt, offset, f.offset, g);
    ghost var p := PadTo(g, f.offset);
    args', pack', unpack' := args, pack, unpack;
    if Nested(t) {
      fmt', args', pack', unpack' := FlushFormat(fmt', args, pack, unpack, p);
      if t.Array? {
        pack' := pack' + [PackEach(k, sub, t.native)];
        unpack' := unpack' + [UnpackEach(k, sub, t.count)];
      } else {
        pack' := pack' + [PackSub(k, sub.value)];
        unpack' := unpack' + [UnpackSub(k, sub.value)];
      }
    } else {
      FormatSnoc(p.items, RunItem(t));
      fmt' := fmt' + if IsBytes(t) then Decimal(t.count) + "s" else [FormatChar(t)];
      args' := args' + [k];
    }
    offset' := offset' + SizeOf(t);
  }

  /** Trailing padding and the last flush. */
  method EmitEnd(fmt: string, args: seq<nat>, pack: seq<PackInstr>, unpack: seq<UnpackInstr>, offset: nat, l: Layout,
      ghost g: Gen)
    returns (pack': seq<PackInstr>, unpack': seq<UnpackInstr>)
    requires Accumulated(g, fmt, args, pack, unpack, offset)
    ensures pack' == Finish(g, l).pack && unpack' == Finish(g, l).unpack
  {
    hide Format;
    pack', unpack' := pack, unpack;
    if l.fields != [] {
      var fmt', offset' := PadFormat(fmt, offset, l.size, g);
      var rest, args';
      rest, args', pack', unpack' := FlushFormat(fmt', args, pack, unpack, PadTo(g, l.size));
    }
  }

  /** generate_struct after its recursive part: walks the fields and builds both programs. */
  method EmitClass(l: Layout) returns (c: ClassDef)
    ensures c == ClassOf(l)
  {
    ClassIsFinished(l);
    assert Accumulated(START, "<", [], [], [], 0);
    hide Accumulated, AddField, SubClass, Prefix, ClassOf, Finish;
    var fmt, offset := "<", 0;
    var args: seq<nat> := [];
    var pack: seq<PackInstr> := [];
    var unpack: seq<UnpackInstr> := [];
    ghost var g := START;
    for k := 0 to |l.fields|
      invariant offset >= 0 && Accumulated(g, fmt, args, pack, unpack, offset)
      invariant g == Prefix(l.fields, k)
    {
      var sub := SubClass(l.fields[k].ty);
      SubClassOfClass(l.fields[k].ty);
      fmt, args, pack, unpack, offset := EmitField(fmt, args, pack, unpack, offset, k, l.fields[k], sub, g);
      NextField(l.fields, k, g);
      g := AddField(g, k, l.fields[k], sub);
    }
    pack, unpack := EmitEnd(fmt, args, pack, unpack, offset, l, g);
    c := ClassDef(l.name, l.size, |l.fields|, pack, unpack);
  }

  lemma SubClassOfClass(t: CType)
    ensures t.Class? ==> SubClass(t).Some?
  {
  }
}
