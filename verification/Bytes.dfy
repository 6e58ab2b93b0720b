/**
Byte strings and the byte loops of web/src/spake2.ts: big-endian and little-endian
numbers, length prefixes, concatenation and the comparison that looks at every byte.
*/
module Bytes {
  import opened Options

  type byte = x: int | 0 <= x < 256

  type Bytes = seq<byte>

  // ----- numbers

  function Pow256(n: nat): (p: nat)
    ensures p > 0
  {
    if n == 0 then 1 else 256 * Pow256(n - 1)
  }

  /** The big-endian value. */
  function FromBE(b: Bytes): nat {
    if b == [] then 0 else 256 * FromBE(b[..|b| - 1]) + b[|b| - 1]
  }

  /** `len` big-endian bytes; higher ones are cut off. */
  function ToBE(n: nat, len: nat): Bytes
    decreases len
  {
    if len == 0 then [] else ToBE(n / 256, len - 1) + [n % 256]
  }

  /** `len` little-endian bytes; higher ones are cut off. */
  function ToLE(n: nat, len: nat): Bytes
    decreases len
  {
    if len == 0 then [] else [n % 256] + ToLE(n / 256, len - 1)
  }

  lemma {:induction false} ToBELength(n: nat, len: nat)
    ensures |ToBE(n, len)| == len
    decreases len
  {
    if len > 0 {
      ToBELength(n / 256, len - 1);
    }
  }

  lemma {:induction false} ToLELength(n: nat, len: nat)
    ensures |ToLE(n, len)| == len
    decreases len
  {
    if len > 0 {
      ToLELength(n / 256, len - 1);
    }
  }

  /** In range, reading back what was written gives the number. */
  lemma {:induction false} FromToBE(n: nat, len: nat)
    requires n < Pow256(len)
    ensures FromBE(ToBE(n, len)) == n
    decreases len
  {
    if len > 0 {
      FromToBE(n / 256, len - 1);
      var s := ToBE(n / 256, len - 1);
      assert (s + [n % 256])[..|s|] == s;
    }
  }

  lemma {:induction false} ToFromBE(b: Bytes)
    ensures FromBE(b) < Pow256(|b|) && ToBE(FromBE(b), |b|) == b
  {
    if b != [] {
      var s, x := b[..|b| - 1], b[|b| - 1];
      ToFromBE(s);
      assert FromBE(b) / 256 == FromBE(s) && FromBE(b) % 256 == x;
      assert b == s + [x];
    }
  }

  /** Two numbers in range with the same little-endian bytes are equal. */
  lemma {:induction false} ToLEInjective(m: nat, n: nat, len: nat)
    requires m < Pow256(len) && n < Pow256(len) && ToLE(m, len) == ToLE(n, len)
    ensures m == n
    decreases len
  {
    if len > 0 {
      var s, t := ToLE(m, len), ToLE(n, len);
      assert s[0] == m % 256 && t[0] == n % 256;
      assert s[1..] == ToLE(m / 256, len - 1) && t[1..] == ToLE(n / 256, len - 1);
      ToLEInjective(m / 256, n / 256, len - 1);
    }
  }

  lemma ToBEInjective(m: nat, n: nat, len: nat)
    requires m < Pow256(len) && n < Pow256(len) && ToBE(m, len) == ToBE(n, len)
    ensures m == n
  {
    FromToBE(m, len);
    FromToBE(n, len);
  }

  /** `n = (n << 8) | byte`, from the first byte to the last. */
  method BytesToBigBE(b: Bytes) returns (n: nat)
    ensures n == FromBE(b)
  {
    n := 0;
    for i := 0 to |b|
      invariant n == FromBE(b[..i])
    {
      assert b[..i + 1][..i] == b[..i];
      n := 256 * n + b[i];
    }
    assert b[..|b|] == b;
  }

  /** From the last byte to the first, `n >>= 8` each time. */
  method BigToBytesBE(num: nat, length: nat) returns (out: array<byte>)
    ensures fresh(out) && out[..] == ToBE(num, length)
  {
    out := new byte[length];
    var n, i := num, length;
    ToBELength(num, length);
    while i > 0
      invariant 0 <= i <= length && out.Length == length
      invariant ToBE(num, length) == ToBE(n, i) + out[i..]
    {
      ghost var rest := out[i..];
      i := i - 1;
      out[i] := n % 256;
      n := n / 256;
      assert out[i..] == [out[i]] + rest;
    }
    assert out[0..] == out[..];
  }

  // ----- length prefixes

  const LENGTH_BYTES := 8

  /** No array of the platform is longer. */
  predicate Sized(b: Bytes) {
    |b| < Pow256(LENGTH_BYTES)
  }

  /** A byte string behind its 8-byte little-endian length (section 3.3 of RFC 9382). */
  function LV(b: Bytes): Bytes {
    ToLE(|b|, LENGTH_BYTES) + b
  }

  method Lv(b: Bytes) returns (out: Bytes)
    ensures out == LV(b)
  {
    var len := new byte[8];
    var n := |b|;
    ghost var all := ToLE(|b|, 8);
    ToLELength(|b|, 8);
    for i := 0 to 8
      invariant n >= 0 && len[..i] == all[..i] && ToLE(n, 8 - i) == all[i..]
    {
      assert all[i..][0] == n % 256 && all[i..][1..] == ToLE(n / 256, 8 - (i + 1));
      len[i] := n % 256;
      assert all[..i + 1] == all[..i] + [all[i]] && len[..i + 1] == len[..i] + [len[i]];
      assert all[i..][1..] == all[i + 1..];
      n := n / 256;
    }
    assert len[..] == len[..8] == all[..8] == all;
    FlattenTwo(len[..], b);
    out := Concat([len[..], b]);
  }

  /** A prefixed string can be told from what follows it. */
  lemma LVSplits(a: Bytes, b: Bytes, x: Bytes, y: Bytes)
    requires Sized(a) && Sized(b) && LV(a) + x == LV(b) + y
    ensures a == b && x == y
  {
    var s, t := LV(a) + x, LV(b) + y;
    ToLELength(|a|, LENGTH_BYTES);
    ToLELength(|b|, LENGTH_BYTES);
    assert s[..LENGTH_BYTES] == ToLE(|a|, LENGTH_BYTES) && t[..LENGTH_BYTES] == ToLE(|b|, LENGTH_BYTES);
    ToLEInjective(|a|, |b|, LENGTH_BYTES);
    assert s[LENGTH_BYTES..LENGTH_BYTES + |a|] == a && t[LENGTH_BYTES..LENGTH_BYTES + |b|] == b;
    assert s[LENGTH_BYTES + |a|..] == x && t[LENGTH_BYTES + |b|..] == y;
  }

  // ----- reading back

  /** The little-endian value. */
  function FromLE(b: Bytes): nat {
    if b == [] then 0 else b[0] + 256 * FromLE(b[1..])
  }

  lemma {:induction false} FromToLE(n: nat, len: nat)
    requires n < Pow256(len)
    ensures FromLE(ToLE(n, len)) == n
    decreases len
  {
    if len > 0 {
      FromToLE(n / 256, len - 1);
      assert ToLE(n, len)[1..] == ToLE(n / 256, len - 1);
    }
  }

  /** The lowest byte comes first in the one, and last in the other. */
  lemma ByteOrders(lo: byte, hi: byte)
    ensures FromLE([lo, hi]) == lo + 256 * hi == FromBE([hi, lo])
  {
    assert [lo, hi][1..] == [hi] && [hi][1..] == [] && [hi, lo][..1] == [hi] && [hi][..0] == [];
    assert FromLE([hi]) == hi && FromBE([hi]) == hi;
  }

  /** A field and what follows it, as a reader finds them who knows only that lengths have
      eight little-endian bytes. */
  function ReadField(b: Bytes): Option<(Bytes, Bytes)> {
    if |b| < 8 then None
    else
      var n := FromLE(b[..8]);
      if |b| < 8 + n then None else Some((b[8..8 + n], b[8 + n..]))
  }

  lemma ReadsLV(a: Bytes, rest: Bytes)
    requires Sized(a)
    ensures ReadField(LV(a) + rest) == Some((a, rest))
  {
    var b := LV(a) + rest;
    ToLELength(|a|, 8);
    FromToLE(|a|, 8);
    assert b[..8] == ToLE(|a|, 8) && b[8..8 + |a|] == a && b[8 + |a|..] == rest;
  }

  function ReadFields(b: Bytes, n: nat): Option<seq<Bytes>> {
    if n == 0 then (if b == [] then Some([]) else None)
    else
      match ReadField(b)
      case None => None
      case Some((f, rest)) => match ReadFields(rest, n - 1) case None => None case Some(fs) => Some([f] + fs)
  }

  // ----- concatenation

  function Flatten(parts: seq<Bytes>): Bytes {
    if parts == [] then [] else parts[0] + Flatten(parts[1..])
  }

  lemma FlattenTwo(a: Bytes, b: Bytes)
    ensures Flatten([a, b]) == a + b
  {
    assert [a, b][1..] == [b] && [b][1..] == [];
    assert Flatten([b]) == b;
  }

  function Total(parts: seq<Bytes>): nat {
    if parts == [] then 0 else |parts[0]| + Total(parts[1..])
  }

  lemma {:induction false} FlattenSnoc(parts: seq<Bytes>, p: Bytes)
    ensures Flatten(parts + [p]) == Flatten(parts) + p && Total(parts + [p]) == Total(parts) + |p|
  {
    if parts == [] {
      assert parts + [p] == [p] && [p][1..] == [];
    } else {
      assert (parts + [p])[1..] == parts[1..] + [p];
      FlattenSnoc(parts[1..], p);
    }
  }

  lemma {:induction false} TotalGrows(parts: seq<Bytes>, i: nat)
    requires i <= |parts|
    ensures Total(parts[..i]) <= Total(parts) && |Flatten(parts[..i])| == Total(parts[..i])
    decreases |parts|
  {
    if parts != [] && i > 0 {
      TotalGrows(parts[1..], i - 1);
      assert parts[1..][..i - 1] == parts[..i][1..];
    }
  }

  /** Two passes: the total length, then a copy of each part at its offset. */
  method Concat(parts: seq<Bytes>) returns (out: Bytes)
    ensures out == Flatten(parts)
  {
    var total := 0;
    for i := 0 to |parts|
      invariant total == Total(parts[..i])
    {
      FlattenSnoc(parts[..i], parts[i]);
      assert parts[..i + 1] == parts[..i] + [parts[i]];
      total := total + |parts[i]|;
    }
    assert parts[..|parts|] == parts;
    var buf := new byte[total];
    var off := 0;
    for i := 0 to |parts|
      invariant off == Total(parts[..i]) <= total == buf.Length
      invariant buf[..off] == Flatten(parts[..i])
    {
      var p := parts[i];
      FlattenSnoc(parts[..i], p);
      assert parts[..i + 1] == parts[..i] + [p];
      TotalGrows(parts, i + 1);
      ghost var before := buf[..off];
      forall k | 0 <= k < |p| {
        buf[off + k] := p[k];
      }
      assert buf[..off] == before && buf[off..off + |p|] == p;
      assert buf[..off + |p|] == buf[..off] + buf[off..off + |p|];
      off := off + |p|;
    }
    assert buf[..total] == buf[..];
    out := buf[..];
  }

  // ----- comparison

  function Pow2(n: nat): nat {
    if n == 0 then 1 else 2 * Pow2(n - 1)
  }

  /** The bitwise operators on the lowest `n` bits. */
  function Xor(a: nat, b: nat, n: nat): nat
    decreases n
  {
    if n == 0 then 0 else 2 * Xor(a / 2, b / 2, n - 1) + if a % 2 != b % 2 then 1 else 0
  }

  function Or(a: nat, b: nat, n: nat): nat
    decreases n
  {
    if n == 0 then 0 else 2 * Or(a / 2, b / 2, n - 1) + if a % 2 == 1 || b % 2 == 1 then 1 else 0
  }

  lemma {:induction false} XorZero(a: nat, b: nat, n: nat)
    requires a < Pow2(n) && b < Pow2(n)
    ensures Xor(a, b, n) < Pow2(n) && (Xor(a, b, n) == 0 <==> a == b)
    decreases n
  {
    if n > 0 {
      XorZero(a / 2, b / 2, n - 1);
    }
  }

  lemma {:induction false} OrZero(a: nat, b: nat, n: nat)
    requires a < Pow2(n) && b < Pow2(n)
    ensures Or(a, b, n) < Pow2(n) && (Or(a, b, n) == 0 <==> a == 0 && b == 0)
    decreases n
  {
    if n > 0 {
      OrZero(a / 2, b / 2, n - 1);
    }
  }

  lemma ByteBits()
    ensures Pow2(8) == 256
  {
    assert Pow2(4) == 16;
    assert Pow2(6) == 64;
  }

  /** Looks at every byte and decides equality. */
  method TimingSafeEqual(a: Bytes, b: Bytes) returns (eq: bool)
    ensures eq <==> a == b
  {
    if |a| != |b| {
      return false;
    }
    ByteBits();
    var diff: nat := 0;
    for i := 0 to |a|
      invariant diff < 256 && (diff == 0 <==> a[..i] == b[..i])
    {
      var x := Xor(a[i], b[i], 8);
      XorZero(a[i], b[i], 8);
      OrZero(diff, x, 8);
      assert a[..i + 1] == a[..i] + [a[i]] && b[..i + 1] == b[..i] + [b[i]];
      diff := Or(diff, x, 8);
    }
    assert a[..|a|] == a && b[..|b|] == b;
    return diff == 0;
  }
}
