/** Base-128 varints as the generated message code reads and writes them. */
module Varints {
  import opened Common
  import opened BitOps

  datatype ParseError =
    | IntOverflow | UnexpectedEOF | InvalidLength | UnexpectedEndOfGroup
    | WrongWireType | IllegalTag | IllegalWireType

  const U32 := 0x1_0000_0000
  const U64 := 0x1_0000_0000_0000_0000

  lemma Widths()
    ensures Pow2(3) == 8 && Pow2(7) == 128 && Pow2(32) == U32 && Pow2(64) == U64
  {
    assert Pow2(4) == 16;
    assert Pow2(7) == 8 * Pow2(4);
    Pow2Sum(4, 4);
    Pow2Sum(8, 8);
    Pow2Sum(16, 16);
    Pow2Sum(32, 32);
  }

  /** The bytes of a varint: seven bits each, the least significant first. */
  function VarintBytes(v: nat): (b: seq<byte>)
    ensures |b| > 0
  {
    if v < 128 then [v] else [v % 128 + 128] + VarintBytes(v / 128)
  }

  /** The number that a group of bytes stands for, seven bits of each, the least significant first. */
  function SevenBits(b: seq<byte>): nat {
    if b == [] then 0 else b[0] as nat % 128 + 128 * SevenBits(b[1..])
  }

  /** Where a varint ends: all bytes but the last are 128 or more. */
  ghost predicate EndsAt(d: seq<byte>, n: nat) {
    0 < n <= |d| && d[n - 1] < 128 && forall k :: 0 <= k < n - 1 ==> d[k] >= 128
  }

  /** A written varint is one by this reading, stands for its number, and has no idle last byte. */
  lemma {:induction false} VarintIs(v: nat)
    ensures var b := VarintBytes(v); EndsAt(b, |b|) && SevenBits(b) == v && (|b| > 1 ==> b[|b| - 1] > 0)
  {
    if v >= 128 {
      VarintIs(v / 128);
      var b, t := VarintBytes(v), VarintBytes(v / 128);
      assert b[1..] == t;
      forall k | 0 <= k < |b| - 1
        ensures b[k] >= 128
      {
        if k > 0 { assert b[k] == t[k - 1]; }
      }
    }
  }

  /** The encoded size, from the bit length. */
  function Sov(x: nat): nat {
    (BitLen(Or(x, 1)) + 6) / 7
  }

  lemma OrOne(x: nat)
    ensures Or(x, 1) == if x % 2 == 1 then x else x + 1
  {
    if x > 0 {
      assert Or(x, 1) == 2 * Or(x / 2, 0) + 1;
      assert Or(x / 2, 0) == x / 2;
    }
  }

  lemma BitLenOrOne(x: nat)
    ensures BitLen(Or(x, 1)) == if x == 0 then 1 else BitLen(x)
  {
    OrOne(x);
    if x > 0 && x % 2 == 0 {
      assert (x + 1) / 2 == x / 2;
    }
  }

  lemma BitLenShift(v: nat)
    requires v >= 128
    ensures BitLen(v) == BitLen(v / 128) + 7
  {
    assert v / 2 / 2 / 2 / 2 / 2 / 2 / 2 == v / 128;
    BitLen7(v);
  }

  lemma BitLen7(v: nat)
    requires v >= 128
    ensures BitLen(v) == BitLen(v / 2 / 2 / 2 / 2 / 2 / 2 / 2) + 7
  {
    var v1 := v / 2;
    var v2 := v1 / 2;
    var v3 := v2 / 2;
    var v4 := v3 / 2;
    var v5 := v4 / 2;
    var v6 := v5 / 2;
    assert BitLen(v) == BitLen(v1) + 1;
    assert BitLen(v1) == BitLen(v2) + 1;
    assert BitLen(v2) == BitLen(v3) + 1;
    assert BitLen(v3) == BitLen(v4) + 1;
    assert BitLen(v4) == BitLen(v5) + 1;
    assert BitLen(v5) == BitLen(v6) + 1;
  }

  lemma SmallBitLen(v: nat)
    requires v < 128
    ensures 1 <= BitLen(Or(v, 1)) <= 7
  {
    BitLenOrOne(v);
    if BitLen(v) > 7 {
      if BitLen(v) > 8 {
        Pow2Monotone(7, BitLen(v) - 1);
      }
      Widths();
    }
  }

  /** The size computed from the bit length is the number of bytes. */
  lemma {:induction false} SovIsLength(v: nat)
    ensures Sov(v) == |VarintBytes(v)|
  {
    if v < 128 {
      SmallBitLen(v);
    } else {
      SovIsLength(v / 128);
      BitLenOrOne(v);
      BitLenOrOne(v / 128);
      BitLenShift(v);
    }
  }

  /** Writes `v` into the bytes just before `offset`, front to back, and returns where it starts. */
  method EncodeVarint(dAtA: array<byte>, offset: nat, v: nat) returns (base: nat)
    requires Sov(v) <= offset <= dAtA.Length
    modifies dAtA
    ensures base + Sov(v) == offset
    ensures dAtA[..] == old(dAtA[..base]) + VarintBytes(v) + old(dAtA[offset..])
  {
    hide Or, And, Shr, Pow2, Sov, BitLen;
    base := offset - Sov(v);
    var at, w := base, v;
    SovIsLength(v);
    ghost var all := VarintBytes(v);
    while w >= 128
      invariant base <= at < offset
      invariant VarintBytes(w) == all[at - base..]
      invariant forall k :: base <= k < at ==> dAtA[k] == all[k - base]
      invariant forall k :: 0 <= k < dAtA.Length && !(base <= k < at) ==> dAtA[k] == old(dAtA[k])
    {
      LowBits(w);
      TailBytes(w, all[at - base..]);
      assert all[at - base..][1..] == all[at + 1 - base..];
      dAtA[at] := Or(And(w, 0x7f), 0x80);
      w := Shr(w, 7);
      at := at + 1;
    }
    dAtA[at] := w;
  }

  lemma TailBytes(w: nat, all: seq<byte>)
    requires w >= 128 && all == VarintBytes(w)
    ensures all[0] == w % 128 + 128 && all[1..] == VarintBytes(w / 128) && |all| > 1
  {
  }

  lemma LowBits(w: nat)
    ensures Or(And(w, 0x7f), 0x80) == w % 128 + 128
    ensures Shr(w, 7) == w / 128
  {
    Widths();
    AndMask(w, 7);
    ShrDivides(w, 7);
    OrDisjoint(w % 128, 1, 7);
    assert Shl(1, 7) == 128;
  }

  // ---------------------------------------------------------------- reading

  /** The reading loop from byte `i` on: `acc` holds the bits gathered, in an accumulator of
      `width` bits, of which a shift drops what does not fit. */
  function VarintFrom(d: seq<byte>, i: nat, shift: nat, acc: nat, width: nat): (r: Result<(nat, nat), ParseError>)
    requires i <= |d|
    ensures r.Ok? ==> i < r.value.1 <= |d|
    decreases |d| - i
  {
    if shift >= 64 then Err(IntOverflow)
    else if i >= |d| then Err(UnexpectedEOF)
    else
      var b := d[i];
      var acc' := Or(acc, Shl(And(b, 0x7f), shift) % Pow2(width));
      if b < 0x80 then Ok((acc', i + 1)) else VarintFrom(d, i + 1, shift + 7, acc', width)
  }

  /** The varint at the front of `d`: its value, cut to `width` bits, and its length. */
  function Varint(d: seq<byte>, width: nat): (r: Result<(nat, nat), ParseError>)
    ensures r.Ok? ==> 0 < r.value.1 <= |d|
  {
    VarintFrom(d, 0, 0, 0, width)
  }

  /** Reading at a position and reading the rest from its front are the same. */
  lemma {:induction false} VarintShift(d: seq<byte>, start: nat, i: nat, shift: nat, acc: nat, width: nat)
    requires start <= i <= |d|
    ensures VarintFrom(d, i, shift, acc, width) ==
            match VarintFrom(d[start..], i - start, shift, acc, width)
            case Ok(p) => Ok((p.0, start + p.1))
            case Err(e) => Err(e)
    decreases |d| - i
  {
    hide Or, And, Shl, Pow2;
    if shift < 64 && i < |d| {
      var b := d[i];
      assert d[start..][i - start] == b;
      VarintShift(d, start, i + 1, shift + 7, Or(acc, Shl(And(b, 0x7f), shift) % Pow2(width)), width);
    }
  }

  lemma VarintAt(d: seq<byte>, i: nat, width: nat)
    requires i <= |d|
    ensures VarintFrom(d, i, 0, 0, width) ==
            match Varint(d[i..], width)
            case Ok(p) => Ok((p.0, i + p.1))
            case Err(e) => Err(e)
  {
    VarintShift(d, i, i, 0, 0, width);
  }

  /** The loop that every varint field is read with. */
  method ReadVarint(d: seq<byte>, start: nat, width: nat) returns (r: Result<(nat, nat), ParseError>)
    requires start <= |d|
    ensures r == VarintFrom(d, start, 0, 0, width)
  {
    var iNdEx, shift, acc := start, 0, 0;
    while true
      invariant start <= iNdEx <= |d|
      invariant VarintFrom(d, start, 0, 0, width) == VarintFrom(d, iNdEx, shift, acc, width)
      decreases |d| - iNdEx
    {
      if shift >= 64 {
        return Err(IntOverflow);
      }
      if iNdEx >= |d| {
        return Err(UnexpectedEOF);
      }
      var b := d[iNdEx];
      iNdEx := iNdEx + 1;
      acc := Or(acc, Shl(And(b, 0x7f), shift) % Pow2(width));
      if b < 0x80 {
        return Ok((acc, iNdEx));
      }
      shift := shift + 7;
    }
  }

  lemma OrStepPast(a: nat, x: nat, s: nat, width: nat)
    requires s >= width
    ensures Or(a % Pow2(width), Shl(x, s) % Pow2(width)) == (a + x * Pow2(s)) % Pow2(width)
  {
    hide Pow2;
    var m, t := Pow2(width), Pow2(s - width);
    Pow2Sum(width, s - width);
    assert x * Pow2(s) == m * (x * t) by {
      Swap(x, m, t);
    }
    DivModUnique(x * Pow2(s), m, x * t, 0);
    AddMultiple(a, m, x * t);
    OrZero(a % m);
  }

  lemma Swap(x: int, m: int, t: int)
    ensures x * (m * t) == m * (x * t)
  {
  }

  lemma OrZero(x: nat)
    ensures Or(x, 0) == x
  {
  }

  lemma OrStepWithin(a: nat, x: nat, s: nat, width: nat)
    requires s < width && a < Pow2(s)
    ensures Or(a % Pow2(width), Shl(x, s) % Pow2(width)) == (a + x * Pow2(s)) % Pow2(width)
  {
    hide Pow2, Or;
    var p, t := Pow2(s), Pow2(width - s);
    Pow2Sum(s, width - s);
    Pow2Monotone(s, width);
    DivModUnique(a, Pow2(width), 0, a);
    ShiftedSum(0, x, p, t);
    OrDisjoint(a, x % t, s);
    ShiftedSum(a, x, p, t);
  }

  /** One byte's contribution is an addition modulo the accumulator's width. */
  lemma OrStep(a: nat, x: nat, s: nat, width: nat)
    requires a < Pow2(s)
    ensures Or(a % Pow2(width), Shl(x, s) % Pow2(width)) == (a + x * Pow2(s)) % Pow2(width)
  {
    if s >= width {
      OrStepPast(a, x, s, width);
    } else {
      OrStepWithin(a, x, s, width);
    }
  }

  lemma AddMultiple(a: nat, m: nat, k: nat)
    requires m > 0
    ensures (a + m * k) % m == a % m
  {
    assert a + m * k == m * (a / m + k) + a % m;
    DivModUnique(a + m * k, m, a / m + k, a % m);
  }

  lemma ShiftedSum(a: nat, x: nat, p: nat, t: nat)
    requires a < p && t > 0 && p * t > 0
    ensures (a + x * p) % (p * t) == a + (x % t) * p
  {
    var q, r := x / t, x % t;
    assert x * p == (p * t) * q + r * p by {
      assert x == t * q + r;
      assert (t * q + r) * p == (t * q) * p + r * p;
      assert (t * q) * p == (p * t) * q;
    }
    assert r * p <= (t - 1) * p;
    assert (t - 1) * p == p * t - p;
    DivModUnique(a + x * p, p * t, q, a + r * p);
  }

  lemma LowSeven(b: nat)
    ensures And(b, 0x7f) == b % 128
  {
    Widths();
    AndMask(b, 7);
  }

  /** One more byte in front of a number of seven-bit groups. */
  lemma GroupInFront(x: nat, q: nat, s: nat, a: nat)
    requires x < 128 && a < Pow2(s)
    ensures a + x * Pow2(s) < Pow2(s + 7)
    ensures a + x * Pow2(s) + q * Pow2(s + 7) == a + (x + 128 * q) * Pow2(s)
  {
    hide Pow2;
    Widths();
    Pow2Sum(s, 7);
    MulMonotone(Pow2(s), x, 127);
    assert (x + 128 * q) * Pow2(s) == x * Pow2(s) + (128 * q) * Pow2(s);
    assert q * (Pow2(s) * 128) == (128 * q) * Pow2(s);
  }

  lemma {:induction false} VarintFromReads(d: seq<byte>, i: nat, n: nat, a: nat, width: nat)
    requires i < n <= 10 && EndsAt(d, n) && a < Pow2(7 * i)
    ensures VarintFrom(d, i, 7 * i, a % Pow2(width), width)
         == Ok(((a + SevenBits(d[i..n]) * Pow2(7 * i)) % Pow2(width), n))
    decreases n - i
  {
    hide Pow2, Or, And, Shl;
    var x := d[i] as nat % 128;
    LowSeven(d[i] as nat);
    OrStep(a, x, 7 * i, width);
    GroupInFront(x, SevenBits(d[i + 1..n]), 7 * i, a);
    assert d[i..n][1..] == d[i + 1..n];
    if i + 1 < n {
      VarintFromReads(d, i + 1, n, a + x * Pow2(7 * i), width);
    } else {
      assert d[i + 1..n] == [];
    }
  }

  /** The bytes from `i` on are 128 or more as far as the loop goes. */
  lemma {:induction false} VarintFromFails(d: seq<byte>, i: nat, acc: nat, width: nat)
    requires i <= |d| && i <= 10 && forall k :: i <= k < |d| && k < 10 ==> d[k] >= 128
    ensures VarintFrom(d, i, 7 * i, acc, width) == Err(if |d| < 10 then UnexpectedEOF else IntOverflow)
    decreases |d| - i
  {
    hide Pow2, Or, And, Shl;
    if i < 10 && i < |d| {
      VarintFromFails(d, i + 1, Or(acc, Shl(And(d[i] as nat, 0x7f), 7 * i) % Pow2(width)), width);
    }
  }

  /** What the reading loop makes of any bytes: the number they stand for, cut to the width, if a
      byte below 128 is among the first ten; otherwise the input ends too early or the number is
      too long. */
  lemma VarintReads(d: seq<byte>, n: nat, width: nat)
    ensures n <= 10 && EndsAt(d, n) ==> Varint(d, width) == Ok((SevenBits(d[..n]) % Pow2(width), n))
    ensures (forall k :: 0 <= k < |d| && k < 10 ==> d[k] >= 128) ==>
              Varint(d, width) == Err(if |d| < 10 then UnexpectedEOF else IntOverflow)
  {
    hide VarintFrom;
    if n <= 10 && EndsAt(d, n) {
      assert Pow2(0) == 1;
      DivModUnique(0, Pow2(width), 0, 0);
      VarintFromReads(d, 0, n, 0, width);
      assert d[0..n] == d[..n];
    }
    if forall k :: 0 <= k < |d| && k < 10 ==> d[k] >= 128 {
      VarintFromFails(d, 0, 0, width);
    }
  }

  lemma {:induction false} VarintLength(v: nat, k: nat)
    requires k > 0 && v < Pow2(7 * k)
    ensures |VarintBytes(v)| <= k
    decreases k
  {
    hide Pow2;
    Widths();
    if v >= 128 {
      Pow2Sum(7 * (k - 1), 7);
      VarintLength(v / 128, k - 1);
    }
  }

  /** Reading a written varint gives its value, cut to the width of the field, and its length. */
  lemma VarintDecodes(v: nat, e: seq<byte>, width: nat)
    requires v < U64
    ensures Varint(VarintBytes(v) + e, width) == Ok((v % Pow2(width), |VarintBytes(v)|))
  {
    hide Pow2, Varint;
    var b := VarintBytes(v);
    Widths();
    Pow2Monotone(64, 70);
    VarintLength(v, 10);
    VarintIs(v);
    assert EndsAt(b + e, |b|);
    VarintReads(b + e, |b|, width);
    assert (b + e)[..|b|] == b;
  }

  /** Bytes after a complete varint do not matter. */
  lemma {:induction false} VarintFromStable(d: seq<byte>, e: seq<byte>, i: nat, shift: nat, acc: nat, width: nat)
    requires i <= |d|
    requires VarintFrom(d, i, shift, acc, width).Ok?
    ensures VarintFrom(d + e, i, shift, acc, width) == VarintFrom(d, i, shift, acc, width)
    decreases |d| - i
  {
    var b := d[i];
    assert (d + e)[i] == b;
    if b >= 0x80 {
      VarintFromStable(d, e, i + 1, shift + 7, Or(acc, Shl(And(b, 0x7f), shift) % Pow2(width)), width);
    }
  }

  lemma VarintStable(d: seq<byte>, e: seq<byte>, width: nat)
    requires Varint(d, width).Ok?
    ensures Varint(d + e, width) == Varint(d, width)
  {
    VarintFromStable(d, e, 0, 0, 0, width);
  }

  // ---------------------------------------------------------------- two's complement

  /** A signed number as the unsigned 64-bit number Go converts it to. */
  function ToU64(x: int): nat
    requires -U64 / 2 <= x < U64 / 2
  {
    if x < 0 then x + U64 else x
  }

  function ToI64(x: nat): int {
    if x < U64 / 2 then x else x - U64
  }

  function ToI32(x: nat): int {
    if x < U32 / 2 then x else x - U32
  }

  predicate IsI64(x: int) {
    -U64 / 2 <= x < U64 / 2
  }

  predicate IsI32(x: int) {
    -U32 / 2 <= x < U32 / 2
  }

  lemma SignedRoundTrip(x: int)
    ensures IsI64(x) ==> ToU64(x) < U64 && ToI64(ToU64(x)) == x
    ensures IsI32(x) ==> IsI64(x) && ToI32(ToU64(x) % U32) == x
  {
  }

  /** A negative number always takes the full ten bytes. */
  lemma NegativeTakesTenBytes(x: int)
    requires IsI64(x) && x < 0
    ensures |VarintBytes(ToU64(x))| == 10
  {
    SovIsLength(ToU64(x));
    BitLenOrOne(ToU64(x));
    Widths();
    assert Pow2(63) == 2 * Pow2(62) && Pow2(64) == 2 * Pow2(63);
    BitLenUnique(ToU64(x), 64);
  }
}
