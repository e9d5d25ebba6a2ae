/**
  The format strings of Python's `struct` module in `<` mode: little-endian, standard sizes, no alignment.
  A format is text; `Parse` gives the items it stands for, `Pack` and `Unpack` run them.
 */
module StructFormat {
  import opened Wrappers
  import opened Bytes

  /** Python values as far as the bindings use them; a float is identified with its wire pattern. */
  datatype Value =
    | VInt(i: int)
    | VBool(b: bool)
    | VFloat(bits: seq<byte>)
    | VBytes(data: seq<byte>)
    | VList(items: seq<Value>)
    | VObj(fields: seq<Value>)

  datatype Item =
    | Pad(n: nat)        // "Nx"
    | Raw(n: nat)        // "Ns"
    | Code(c: char)

  // ---- text ------------------------------------------------------------------------------------

  predicate IsDigit(c: char) { '0' <= c <= '9' }

  function Digit(d: nat): (c: char)
    requires d < 10
    ensures IsDigit(c) && DigitValue(c) == d
  {
    '0' + d as char
  }

  /** std::to_string of an unsigned number. */
  function Decimal(n: nat): (s: string)
    ensures s != ""
  {
    if n < 10 then [Digit(n)] else Decimal(n / 10) + [Digit(n % 10)]
  }

  function DigitValue(c: char): nat
    requires IsDigit(c)
  {
    c as int - '0' as int
  }

  function Repeat(n: nat, c: char): seq<Item> {
    seq(n, _ => Code(c))
  }

  /** The items of one letter with its count; "4h" means "hhhh". */
  function Expand(count: nat, c: char): seq<Item> {
    if c == 'x' then [Pad(count)] else if c == 's' then [Raw(count)] else Repeat(count, c)
  }

  /** Reads `s` after the digits of `count`, if `counted`. */
  function ParseFrom(s: string, counted: bool, count: nat): Option<seq<Item>> {
    if s == "" then (if counted then None else Some([]))
    else if IsDigit(s[0]) then ParseFrom(s[1..], true, 10 * (if counted then count else 0) + DigitValue(s[0]))
    else Cat(Some(Expand(if counted then count else 1, s[0])), ParseFrom(s[1..], false, 0))
  }

  function Parse(s: string): Option<seq<Item>> {
    ParseFrom(s, false, 0)
  }

  function RenderItem(item: Item): string {
    match item
    case Pad(n) => Decimal(n) + "x"
    case Raw(n) => Decimal(n) + "s"
    case Code(c) => [c]
  }

  predicate Plain(c: char) { !IsDigit(c) && c != 'x' && c != 's' }

  predicate Renderable(item: Item) {
    item.Code? ==> Plain(item.c)
  }

  lemma {:induction false} ParseDecimal(n: nat, rest: string)
    ensures ParseFrom(Decimal(n) + rest, false, 0) == ParseFrom(rest, true, n)
  {
    var last := [Digit(n % 10)] + rest;
    assert last[1..] == rest;
    if n < 10 {
      assert Decimal(n) + rest == last;
    } else {
      ParseDecimal(n / 10, last);
      assert Decimal(n) + rest == Decimal(n / 10) + last;
    }
  }

  lemma ParseOne(item: Item)
    requires Renderable(item)
    ensures Parse(RenderItem(item)) == Some([item])
  {
    CatNeutral(Some([item]));
    match item
    case Pad(n) =>
      ParseDecimal(n, "x");
      assert "x"[1..] == "";
    case Raw(n) =>
      ParseDecimal(n, "s");
      assert "s"[1..] == "";
    case Code(c) =>
      var s: string := [c];
      assert s[1..] == "" && Repeat(1, c) == [Code(c)];
      assert ParseFrom(s[1..], false, 0) == Some([]);
  }

  /** No letter of a later piece can be absorbed by an earlier one. */
  lemma {:induction false} ParseAppend(a: string, counted: bool, count: nat, b: string)
    requires ParseFrom(a, counted, count).Some?
    ensures ParseFrom(a + b, counted, count) == Cat(ParseFrom(a, counted, count), Parse(b))
    decreases |a|
  {
    if a == "" {
      assert a + b == b;
      CatNeutral(Parse(b));
    } else {
      assert (a + b)[1..] == a[1..] + b;
      if IsDigit(a[0]) {
        ParseAppend(a[1..], true, 10 * (if counted then count else 0) + DigitValue(a[0]), b);
      } else {
        ParseAppend(a[1..], false, 0, b);
        CatAssociative(Some(Expand(if counted then count else 1, a[0])), Parse(a[1..]), Parse(b));
      }
    }
  }

  // ---- packing ---------------------------------------------------------------------------------

  function CodeSize(c: char): nat {
    match c
    case 'h' => 2
    case 'H' => 2
    case 'i' => 4
    case 'I' => 4
    case 'f' => 4
    case 'q' => 8
    case 'Q' => 8
    case 'd' => 8
    case _ => 1
  }

  predicate IsSigned(c: char) { c == 'b' || c == 'h' || c == 'i' || c == 'q' }

  predicate IsIntegral(c: char) { IsSigned(c) || c == 'B' || c == 'H' || c == 'I' || c == 'Q' }

  predicate IsFloating(c: char) { c == 'f' || c == 'd' }

  function ItemSize(item: Item): nat {
    match item
    case Pad(n) => n
    case Raw(n) => n
    case Code(c) => CodeSize(c)
  }

  /** struct.calcsize */
  function Size(items: seq<Item>): nat {
    if items == [] then 0 else ItemSize(items[0]) + Size(items[1..])
  }

  /** Byte `k` of a float without its sign, which is the highest bit of the last byte. */
  function Magnitude(bits: seq<byte>, k: nat): nat
    requires k < |bits|
  {
    if k == |bits| - 1 then bits[k] as int % 0x80 else bits[k] as int
  }

  /** What Python's bool() gives for the values of scalar fields; a zero of either sign is false. */
  function Truth(v: Value): bool {
    match v
    case VInt(i) => i != 0
    case VBool(b) => b
    case VFloat(bits) => exists k | 0 <= k < |bits| :: Magnitude(bits, k) != 0
    case VBytes(d) => d != []
    case VList(l) => l != []
    case VObj(_) => true
  }

  function PackCode(c: char, v: Value): (r: Option<seq<byte>>)
    ensures r.Some? ==> |r.value| == CodeSize(c)
  {
    if c == '?' then Some([if Truth(v) then 1 else 0])
    else if IsFloating(c) then
      if v.VFloat? && |v.bits| == CodeSize(c) then Some(v.bits) else None
    else if IsIntegral(c) && v.VInt? && InRange(CodeSize(c), IsSigned(c), v.i) then
      Pow256Even(CodeSize(c));
      Some(EncodeInt(CodeSize(c), v.i))
    else None
  }

  /** `<`: the least significant byte first, negative numbers in two's complement. */
  lemma PackedByte(c: char, v: int, i: nat)
    requires IsIntegral(c) && InRange(CodeSize(c), IsSigned(c), v) && i < CodeSize(c)
    ensures var r := PackCode(c, VInt(v));
            r.Some? && r.value[i] == (Unsigned(CodeSize(c), v) / Pow256(i)) % 256
  {
    Pow256Even(CodeSize(c));
    EncodedByte(CodeSize(c), v, i);
  }

  function UnpackCode(c: char, data: seq<byte>): Option<Value>
    requires |data| == CodeSize(c)
  {
    if c == '?' then Some(VBool(data[0] != 0))
    else if IsFloating(c) then Some(VFloat(data))
    else if IsIntegral(c) then Some(VInt(DecodeInt(IsSigned(c), data)))
    else None
  }

  predicate TakesValue(item: Item) { !item.Pad? }

  function PackItem(item: Item, v: Value): (r: Option<seq<byte>>)
    requires TakesValue(item)
    ensures r.Some? ==> |r.value| == ItemSize(item)
  {
    match item
    case Raw(n) => if v.VBytes? then Some(Fit(n, v.data)) else None
    case Code(c) => PackCode(c, v)
  }

  function PackItems(items: seq<Item>, args: seq<Value>): (r: Option<seq<byte>>)
    ensures r.Some? ==> |r.value| == Size(items)
  {
    if items == [] then (if args == [] then Some([]) else None)
    else if items[0].Pad? then
      Cat(Some(Zeros(items[0].n)), PackItems(items[1..], args))
    else if args == [] then None
    else Cat(PackItem(items[0], args[0]), PackItems(items[1..], args[1..]))
  }

  function UnpackItem(item: Item, data: seq<byte>): Option<Value>
    requires TakesValue(item) && |data| == ItemSize(item)
  {
    match item
    case Raw(n) => Some(VBytes(data))
    case Code(c) => UnpackCode(c, data)
  }

  /** Reads the items from `offset` on; more data may follow. */
  function UnpackItems(items: seq<Item>, data: seq<byte>, offset: nat): (r: Option<seq<Value>>)
    ensures r.Some? ==> offset + Size(items) <= |data|
  {
    if items == [] then (if offset <= |data| then Some([]) else None)
    else
      var next := offset + ItemSize(items[0]);
      if |data| < next then None
      else if items[0].Pad? then UnpackItems(items[1..], data, next)
      else
        var first :- UnpackItem(items[0], data[offset..next]);
        Cat(Some([first]), UnpackItems(items[1..], data, next))
  }

  /** How many arguments the items take. */
  function Takers(items: seq<Item>): nat {
    if items == [] then 0 else (if TakesValue(items[0]) then 1 else 0) + Takers(items[1..])
  }

  lemma {:induction false} PackAppend(a: seq<Item>, x: seq<Value>, b: seq<Item>, y: seq<Value>)
    requires |x| == Takers(a)
    ensures PackItems(a + b, x + y) == Cat(PackItems(a, x), PackItems(b, y))
    ensures Takers(a + b) == Takers(a) + Takers(b)
    decreases |a|
  {
    if a == [] {
      assert a + b == b && x + y == y;
      CatNeutral(PackItems(b, y));
    } else {
      assert (a + b)[0] == a[0] && (a + b)[1..] == a[1..] + b;
      if a[0].Pad? {
        PackAppend(a[1..], x, b, y);
        CatAssociative(Some(Zeros(a[0].n)), PackItems(a[1..], x), PackItems(b, y));
      } else {
        PackAppend(a[1..], x[1..], b, y);
        assert (x + y)[0] == x[0] && (x + y)[1..] == x[1..] + y;
        CatAssociative(PackItem(a[0], x[0]), PackItems(a[1..], x[1..]), PackItems(b, y));
      }
    }
  }

  lemma {:induction false} SizeAppend(a: seq<Item>, b: seq<Item>)
    ensures Size(a + b) == Size(a) + Size(b)
    decreases |a|
  {
    if a == [] {
      assert a + b == b;
    } else {
      assert (a + b)[0] == a[0] && (a + b)[1..] == a[1..] + b;
      SizeAppend(a[1..], b);
    }
  }

  lemma {:induction false} UnpackAppend(a: seq<Item>, b: seq<Item>, data: seq<byte>, offset: nat)
    requires UnpackItems(a, data, offset).Some?
    ensures UnpackItems(a + b, data, offset)
         == Cat(UnpackItems(a, data, offset), UnpackItems(b, data, offset + Size(a)))
    decreases |a|
  {
    if a == [] {
      assert a + b == b;
      CatNeutral(UnpackItems(b, data, offset));
    } else {
      var next := offset + ItemSize(a[0]);
      assert (a + b)[0] == a[0] && (a + b)[1..] == a[1..] + b;
      UnpackAppend(a[1..], b, data, next);
      if !a[0].Pad? {
        CatAssociative(Some([UnpackItem(a[0], data[offset..next]).value]), UnpackItems(a[1..], data, next),
                       UnpackItems(b, data, offset + Size(a)));
      }
    }
  }

  /** struct.pack("<" + body, *args) */
  function Pack(fmt: string, args: seq<Value>): Option<seq<byte>> {
    if fmt == "" || fmt[0] != '<' then None
    else
      var items :- Parse(fmt[1..]);
      PackItems(items, args)
  }

  /** struct.unpack_from("<" + body, data, offset) */
  function Unpack(fmt: string, data: seq<byte>, offset: nat): Option<seq<Value>> {
    if fmt == "" || fmt[0] != '<' then None
    else
      var items :- Parse(fmt[1..]);
      UnpackItems(items, data, offset)
  }

  /** struct.calcsize of a format text */
  function CalcSize(fmt: string): Option<nat> {
    if fmt == "" || fmt[0] != '<' then None
    else
      var items :- Parse(fmt[1..]);
      Some(Size(items))
  }

  // ---- formats written by a generator ------------------------------------------------------------

  function RenderAll(items: seq<Item>): string {
    if items == [] then "" else RenderAll(items[..|items| - 1]) + RenderItem(items[|items| - 1])
  }

  function Format(items: seq<Item>): string {
    "<" + RenderAll(items)
  }

  predicate AllRenderable(items: seq<Item>) {
    forall i | 0 <= i < |items| :: Renderable(items[i])
  }

  lemma FormatSnoc(items: seq<Item>, item: Item)
    ensures Format(items + [item]) == Format(items) + RenderItem(item) != "<"
  {
    assert (items + [item])[..|items|] == items;
  }

  /** The text appended item by item stands for exactly these items. */
  lemma {:induction false} ParseRenderAll(items: seq<Item>)
    requires AllRenderable(items)
    ensures Parse(RenderAll(items)) == Some(items)
  {
    if items != [] {
      var init, last := items[..|items| - 1], items[|items| - 1];
      ParseRenderAll(init);
      ParseOne(last);
      ParseAppend(RenderAll(init), false, 0, RenderItem(last));
      assert items == init + [last];
    }
  }

  lemma FormatMeansItems(items: seq<Item>, args: seq<Value>, data: seq<byte>, offset: nat)
    requires AllRenderable(items)
    ensures Pack(Format(items), args) == PackItems(items, args)
    ensures Unpack(Format(items), data, offset) == UnpackItems(items, data, offset)
    ensures CalcSize(Format(items)) == Some(Size(items))
  {
    ParseRenderAll(items);
    assert Format(items)[1..] == RenderAll(items);
  }

  lemma {:induction false} TakersSnoc(items: seq<Item>, item: Item)
    ensures Takers(items + [item]) == Takers(items) + if TakesValue(item) then 1 else 0
  {
    if items == [] {
      assert [item][1..] == [] && items + [item] == [item];
    } else {
      assert (items + [item])[1..] == items[1..] + [item];
      TakersSnoc(items[1..], item);
    }
  }

  lemma PackOne(item: Item, y: seq<Value>)
    requires |y| == if TakesValue(item) then 1 else 0
    ensures PackItems([item], y) == if TakesValue(item) then PackItem(item, y[0]) else Some(Zeros(item.n))
  {
    assert [item][1..] == [];
    CatNeutral(PackItems([item], y));
    if TakesValue(item) {
      assert y[1..] == [];
      CatNeutral(PackItem(item, y[0]));
    } else {
      CatNeutral(Some(Zeros(item.n)));
    }
  }

  lemma UnpackItemsSnoc(items: seq<Item>, item: Item, data: seq<byte>, offset: nat, v: Value)
    requires UnpackItems(items, data, offset).Some?
    requires var o := offset + Size(items);
             o + ItemSize(item) <= |data|
               && (TakesValue(item) ==> UnpackItem(item, data[o..o + ItemSize(item)]) == Some(v))
    ensures Size(items + [item]) == Size(items) + ItemSize(item)
    ensures UnpackItems(items + [item], data, offset)
         == Some(UnpackItems(items, data, offset).value + if TakesValue(item) then [v] else [])
  {
    hide UnpackItem, ItemSize;
    UnpackAppend(items, [item], data, offset);
    SizeAppend(items, [item]);
    assert [item][1..] == [];
    CatNeutral(Some([v]));
  }
}
