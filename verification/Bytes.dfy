/** Bytes, zero fill, memory overlay and little-endian integers. */
module Bytes {

  type byte = b: int | 0 <= b < 256

  function Zeros(n: nat): (z: seq<byte>)
    ensures |z| == n
    ensures forall i | 0 <= i < n :: z[i] == 0
  {
    seq(n, _ => 0)
  }

  /** The memory `m` after `b` was stored at `offset`. */
  function Overlay(m: seq<byte>, offset: nat, b: seq<byte>): (r: seq<byte>)
    requires offset + |b| <= |m|
    ensures |r| == |m|
    ensures r[offset..offset + |b|] == b
    ensures r[..offset] == m[..offset] && r[offset + |b|..] == m[offset + |b|..]
  {
    m[..offset] + b + m[offset + |b|..]
  }

  lemma OverlayKeeps(m: seq<byte>, offset: nat, b: seq<byte>, lo: nat, hi: nat)
    requires lo <= hi <= offset && offset + |b| <= |m|
    ensures Overlay(m, offset, b)[lo..hi] == m[lo..hi]
  {
    assert Overlay(m, offset, b)[lo..hi] == Overlay(m, offset, b)[..offset][lo..hi];
  }

  lemma OverlayElsewhere(m: seq<byte>, offset: nat, b: seq<byte>, i: nat)
    requires offset + |b| <= |m| && i < |m| && (i < offset || offset + |b| <= i)
    ensures Overlay(m, offset, b)[i] == m[i]
  {
    var r := Overlay(m, offset, b);
    if i < offset {
      assert r[i] == r[..offset][i];
    } else {
      assert r[i] == r[offset + |b|..][i - (offset + |b|)];
    }
  }

  lemma SubSlice(m: seq<byte>, offset: nat, end: nat, lo: nat, hi: nat)
    requires offset <= end <= |m| && lo <= hi <= end - offset
    ensures m[offset..end][lo..hi] == m[offset + lo..offset + hi]
    ensures m[offset..end][..hi] == m[offset..offset + hi]
  {
    assert forall i | 0 <= i < hi - lo :: m[offset..end][lo..hi][i] == m[offset + lo + i];
  }

  /** Exactly `n` bytes: truncated, or filled up with zeros. */
  function Fit(n: nat, b: seq<byte>): (r: seq<byte>)
    ensures |r| == n
    ensures |b| == n ==> r == b
  {
    if |b| >= n then b[..n] else b + Zeros(n - |b|)
  }

  lemma FitByte(n: nat, b: seq<byte>, i: nat)
    requires i < n
    ensures Fit(n, b)[i] == if i < |b| then b[i] else 0
  {
  }

  /** `count * n`, as the total size of `count` consecutive elements. */
  function Times(count: nat, n: nat): (r: nat)
    ensures n == 1 ==> r == count
  {
    if count == 0 then 0 else n + Times(count - 1, n)
  }

  function Pow256(n: nat): (p: nat)
    ensures p >= 1
  {
    if n == 0 then 1 else 256 * Pow256(n - 1)
  }

  lemma Pow256Even(n: nat)
    requires n > 0
    ensures Pow256(n) % 2 == 0
  {
  }

  function LittleEndian(v: nat, n: nat): (s: seq<byte>)
    ensures |s| == n
    decreases n
  {
    if n == 0 then [] else [v % 256] + LittleEndian(v / 256, n - 1)
  }

  function FromLittleEndian(s: seq<byte>): nat {
    if s == [] then 0 else s[0] + 256 * FromLittleEndian(s[1..])
  }

  lemma {:induction false} FromLittleEndianBound(s: seq<byte>)
    ensures FromLittleEndian(s) < Pow256(|s|)
  {
    if s != [] {
      FromLittleEndianBound(s[1..]);
    }
  }

  lemma {:induction false} LittleEndianRead(v: nat, n: nat)
    requires v < Pow256(n)
    ensures FromLittleEndian(LittleEndian(v, n)) == v
    decreases n
  {
    if n > 0 {
      LittleEndianRead(v / 256, n - 1);
      assert LittleEndian(v, n)[1..] == LittleEndian(v / 256, n - 1);
    }
  }

  lemma {:induction false} LittleEndianWrite(s: seq<byte>)
    ensures LittleEndian(FromLittleEndian(s), |s|) == s
  {
    if s != [] {
      LittleEndianWrite(s[1..]);
      assert FromLittleEndian(s) / 256 == FromLittleEndian(s[1..]);
      assert s == [s[0]] + s[1..];
    }
  }

  /** Byte `i` has weight 256^i: the least significant one comes first. */
  lemma {:induction false} LittleEndianByte(v: nat, n: nat, i: nat)
    requires i < n
    ensures LittleEndian(v, n)[i] == (v / Pow256(i)) % 256
    decreases n
  {
    if i > 0 {
      LittleEndianByte(v / 256, n - 1, i - 1);
      DivideTwice(v, Pow256(i - 1));
    }
  }

  lemma DivideTwice(v: nat, p: nat)
    requires p > 0
    ensures (v / 256) / p == v / (256 * p)
  {
    var u := v / 256;
    var q := u / p;
    assert q * p <= u <= q * p + p - 1;
    assert q * (256 * p) == 256 * (q * p);
    QuotientIs(v, 256 * p, q);
  }

  lemma QuotientIs(v: nat, d: nat, q: nat)
    requires q * d <= v < q * d + d
    ensures v / d == q
  {
    var k := v / d;
    assert k * d <= v < k * d + d;
    if k < q {
      TimesMonotone(k, q, d);
    } else if q < k {
      TimesMonotone(q, k, d);
    }
  }

  lemma {:induction false} TimesMonotone(a: int, b: int, d: nat)
    requires a < b
    ensures a * d + d <= b * d
    decreases b - a
  {
    assert (b - 1) * d == b * d - d;
    if a < b - 1 {
      TimesMonotone(a, b - 1, d);
    }
  }

  /** The values a `size`-byte integer can hold. */
  predicate InRange(size: nat, signed: bool, v: int) {
    if signed then -(Pow256(size) / 2) <= v < Pow256(size) / 2 else 0 <= v < Pow256(size)
  }

  /** Two's complement, least significant byte first. */
  function EncodeInt(size: nat, v: int): (s: seq<byte>)
    requires v + Pow256(size) >= 0
    ensures |s| == size
  {
    LittleEndian(if v < 0 then v + Pow256(size) else v, size)
  }

  /** Two's complement: a negative value stands for 256^size more. */
  function Unsigned(size: nat, v: int): int { if v < 0 then v + Pow256(size) else v }

  lemma EncodedByte(size: nat, v: int, i: nat)
    requires v + Pow256(size) >= 0 && i < size
    ensures EncodeInt(size, v)[i] == (Unsigned(size, v) / Pow256(i)) % 256
  {
    LittleEndianByte(Unsigned(size, v), size, i);
  }

  function DecodeInt(signed: bool, s: seq<byte>): int {
    var u := FromLittleEndian(s);
    if signed && u >= Pow256(|s|) / 2 then u - Pow256(|s|) else u
  }

  lemma IntRead(size: nat, signed: bool, v: int)
    requires size > 0 && InRange(size, signed, v)
    ensures v + Pow256(size) >= 0
    ensures DecodeInt(signed, EncodeInt(size, v)) == v
  {
    Pow256Even(size);
    LittleEndianRead(if v < 0 then v + Pow256(size) else v, size);
  }

  lemma IntWrite(signed: bool, s: seq<byte>)
    requires s != []
    ensures InRange(|s|, signed, DecodeInt(signed, s))
    ensures EncodeInt(|s|, DecodeInt(signed, s)) == s
  {
    Pow256Even(|s|);
    FromLittleEndianBound(s);
    LittleEndianWrite(s);
  }
}
