/** The growing and shrinking ring buffer, refining a plain byte sequence. */
module RingBuffers {
  import opened Common
  import opened BitOps

  const INIT_SIZE := 4096
  const MAX_INT_HEAD_BIT := 0x4000_0000_0000_0000

  lemma HeadBit()
    ensures MAX_INT_HEAD_BIT == Pow2(62) && Pow2(63) == 2 * MAX_INT_HEAD_BIT
    ensures INIT_SIZE == Pow2(12)
  {
    assert Pow2(8) == 256;
    Pow2Sum(8, 4);
    Pow2Sum(8, 8);
    Pow2Sum(16, 16);
    Pow2Sum(32, 16);
    Pow2Sum(48, 8);
    Pow2Sum(56, 6);
    Pow2Sum(56, 7);
  }

  ghost predicate IsPow2(n: nat) {
    exists k: nat :: n == Pow2(k)
  }

  /** `p` is the least power of two that is at least `n`. */
  ghost predicate LeastPow2(p: nat, n: int) {
    IsPow2(p) && p >= n && forall k: nat :: Pow2(k) >= n ==> p <= Pow2(k)
  }

  // ---------------------------------------------------------------- rounding up to a power of two

  /** The `j` highest of `k` bits are all ones. */
  ghost predicate TopOnes(n: nat, k: nat, j: nat) {
    j <= k && Pow2(k) - Pow2(k - j) <= n < Pow2(k)
  }

  lemma ShrBounds(n: nat, j: nat)
    ensures Pow2(j) * Shr(n, j) <= n < Pow2(j) * Shr(n, j) + Pow2(j)
  {
    ShrDivides(n, j);
  }

  /** The shifted copy `y` fits under the leading ones and brings the next run of them. */
  lemma FillArithmetic(n: nat, y: nat, p: nat, q: nat, t: nat)
    requires q * p - p <= n < q * p && q * t >= p
    requires q * y <= n < q * y + q
    ensures p - t <= y < p
  {
    assert q * (p - t) == q * p - q * t;
    QuotientAtLeast(q, y, n - q * y, p - t);
    if y >= p {
      MulMonotone(q, p, y);
    }
  }

  lemma FillOr(n: nat, y: nat, hi: nat, m: nat, t: nat, full: nat)
    requires 0 <= n - hi * Pow2(m) < Pow2(m) && Pow2(m) - t <= y < Pow2(m)
    requires full == hi * Pow2(m) + Pow2(m)
    ensures full - t <= Or(n, y) < full
  {
    var rest := n - hi * Pow2(m);
    OrSplit(hi, rest, y, m);
    OrBounds(rest, y, m);
  }

  lemma NextRun(k: nat, j: nat)
    requires j <= k
    ensures Pow2(j) * Pow2(k - Capped(2 * j, k)) >= Pow2(k - j)
  {
    if 2 * j <= k {
      Pow2Sum(j, k - 2 * j);
    } else {
      Pow2Monotone(k - j, j);
      assert Pow2(k - k) == 1;
    }
  }

  lemma MulPred(q: int, p: int)
    ensures (q - 1) * p == q * p - p
  {
  }

  lemma FillCore(n: nat, j: nat, m: nat, t: nat, full: nat)
    requires full == Pow2(j) * Pow2(m) && full - Pow2(m) <= n < full
    requires Pow2(j) * t >= Pow2(m)
    ensures full - t <= Or(n, Shr(n, j)) < full
  {
    ShrBounds(n, j);
    FillArithmetic(n, Shr(n, j), Pow2(m), Pow2(j), t);
    MulPred(Pow2(j), Pow2(m));
    FillOr(n, Shr(n, j), Pow2(j) - 1, m, t, full);
  }

  /** Folding in a copy shifted by `j` doubles the run of leading ones. */
  lemma FillStep(n: nat, k: nat, j: nat)
    requires TopOnes(n, k, j)
    ensures TopOnes(Or(n, Shr(n, j)), k, Capped(2 * j, k))
  {
    Pow2Sum(j, k - j);
    NextRun(k, j);
    FillCore(n, j, k - j, Pow2(k - Capped(2 * j, k)), Pow2(k));
  }

  /** One fold, also when the leading ones already cover the whole number. */
  lemma FillFold(n: nat, k: nat, j: nat)
    requires TopOnes(n, k, Capped(j, k))
    ensures TopOnes(Or(n, Shr(n, j)), k, Capped(2 * j, k))
  {
    if j <= k {
      FillStep(n, k, j);
    } else {
      ShrDivides(n, j);
      DivLeq(n, Pow2(j));
      OrBounds(n, Shr(n, j), k);
    }
  }

  function Capped(j: nat, k: nat): nat {
    if j <= k then j else k
  }

  /** Sets every bit below the highest set bit of a non-negative 64-bit number. */
  method FillBits(n: nat) returns (r: nat)
    requires n < 2 * MAX_INT_HEAD_BIT
    ensures r == Pow2(BitLen(n)) - 1
  {
    HeadBit();
    ghost var k := BitLen(n);
    assert k <= 63 by {
      if k > 63 && k - 1 > 63 { Pow2Monotone(63, k - 1); }
    }
    r := n;
    FillFold(r, k, 1);
    r := Or(r, Shr(r, 1));
    FillFold(r, k, 2);
    r := Or(r, Shr(r, 2));
    FillFold(r, k, 4);
    r := Or(r, Shr(r, 4));
    FillFold(r, k, 8);
    r := Or(r, Shr(r, 8));
    FillFold(r, k, 16);
    r := Or(r, Shr(r, 16));
    FillFold(r, k, 32);
    r := Or(r, Shr(r, 32));
    FullRun(r, k);
  }

  lemma FullRun(n: nat, k: nat)
    requires TopOnes(n, k, k)
    ensures n == Pow2(k) - 1
  {
    assert Pow2(k - k) == 1;
  }

  /** The least power of two at least `max(n, 2)`; nothing (a panic) above 2^62. */
  method CeilToPowerOfTwo(n: int) returns (r: Option<nat>)
    ensures r.None? <==> n > MAX_INT_HEAD_BIT
    ensures r.Some? ==> LeastPow2(r.value, if n < 2 then 2 else n)
  {
    if n > MAX_INT_HEAD_BIT {
      return None;
    }
    assert Pow2(1) == 2 * Pow2(0) == 2;
    if n <= 2 {
      return Some(2);
    }

    ghost var k := BitLen(n - 1);
    var m := FillBits(n - 1);
    m := m + 1;
    forall i: nat | Pow2(i) >= n
      ensures m <= Pow2(i)
    {
      if i < k - 1 {
        Pow2Monotone(i, k - 1);
      } else if k < i {
        Pow2Monotone(k, i);
      }
    }
    return Some(m);
  }

  // ---------------------------------------------------------------- the buffer

  lemma HalfPow2(n: nat)
    requires IsPow2(n)
    ensures n > 1 ==> IsPow2(n / 2)
    ensures n == 1 ==> n / 2 == 0
  {
    var k: nat :| n == Pow2(k);
    if k > 0 {
      assert n / 2 == Pow2(k - 1);
    }
  }

  /** Masking with the size less one wraps an index around. */
  lemma MaskIsMod(x: nat, n: nat)
    requires IsPow2(n)
    ensures n > 0 && And(x, n - 1) == x % n
  {
    var k: nat :| n == Pow2(k);
    AndMask(x, k);
  }

  lemma MaskWraps(x: nat, n: nat)
    requires IsPow2(n) && x < 2 * n
    ensures And(x, n - 1) == if x < n then x else x - n
  {
    MaskIsMod(x, n);
    DivModUnique(x, n, if x < n then 0 else 1, if x < n then x else x - n);
  }

  /** The bytes between two positions of a non-empty ring, around the end if need be. */
  function Between(b: seq<byte>, r: nat, w: nat): seq<byte>
    requires r < |b| && w < |b|
  {
    if r < w then b[r..w] else b[r..] + b[..w]
  }

  lemma BetweenAdvance(b: seq<byte>, r: nat, w: nat, n: nat)
    requires r < |b| && w < |b| && n <= |Between(b, r, w)|
    ensures
      var r' := if r + n < |b| then r + n else r + n - |b|;
      && 0 <= r' < |b|
      && (n == |Between(b, r, w)| ==> r' == w)
      && (n < |Between(b, r, w)| ==> Between(b, r', w) == Between(b, r, w)[n..])
      && (0 < n < |Between(b, r, w)| ==> r' != w)
  {
  }

  lemma BetweenTake(b: seq<byte>, r: nat, w: nat, n: nat)
    requires r < |b| && w < |b| && n <= |Between(b, r, w)|
    ensures Between(b, r, w)[..n] == if r + n <= |b| then b[r..r + n] else b[r..] + b[..r + n - |b|]
  {
  }

  lemma BetweenAppend(b: seq<byte>, b': seq<byte>, r: nat, w: nat, w': nat, p: seq<byte>, empty: bool)
    requires r < |b| == |b'| && w < |b| && w' < |b| && |p| > 0
    requires var len := if empty then 0 else |Between(b, r, w)|; |p| <= |b| - len
    requires empty ==> w == r
    requires w' == if w + |p| < |b| then w + |p| else w + |p| - |b|
    requires forall i :: 0 <= i < |p| ==> b'[if w + i < |b| then w + i else w + i - |b|] == p[i]
    requires forall i :: 0 <= i < |b| && !(w <= i < w + |p|) && !(w <= i + |b| < w + |p|) ==> b'[i] == b[i]
    ensures Between(b', r, w') == (if empty then [] else Between(b, r, w)) + p
  {
    var old_ := if empty then [] else Between(b, r, w);
    var now := Between(b', r, w');
    assert |now| == |old_| + |p|;
    forall i | 0 <= i < |now|
      ensures now[i] == (old_ + p)[i]
    {
      assert now[i] == b'[if r + i < |b| then r + i else r + i - |b|];
      if i < |old_| {
        assert old_[i] == b[if r + i < |b| then r + i else r + i - |b|];
      } else {
        assert b'[if w + (i - |old_|) < |b| then w + (i - |old_|) else w + (i - |old_|) - |b|] == p[i - |old_|];
      }
    }
  }

  /** Go's `copy` of a whole slice to an offset where it fits. */
  method CopyTo(dst: array<byte>, at: nat, src: seq<byte>)
    requires at + |src| <= dst.Length
    modifies dst
    ensures forall i :: 0 <= i < dst.Length ==> dst[i] == if at <= i < at + |src| then src[i - at] else old(dst[i])
  {
    forall i | 0 <= i < |src| {
      dst[at + i] := src[i];
    }
  }

  lemma Copied(before: seq<byte>, after: seq<byte>, data: seq<byte>)
    requires |data| <= |before| == |after|
    requires forall i :: 0 <= i < |after| ==> after[i] == if i < |data| then data[i] else before[i]
    ensures after == data + before[|data|..]
  {
  }

  /** A read moved the first `n` bytes of `s` into a caller's buffer, as many as both allow. */
  ghost predicate Moved(s: seq<byte>, p: seq<byte>, n: nat, p': seq<byte>, s': seq<byte>) {
    && n == Min(|p|, |s|)
    && p' == s[..n] + p[n..]
    && s' == s[n..]
  }

  class RingBuffer {
    var buf: array<byte>
    var size: nat
    var mask: int
    var r: nat
    var w: nat
    var isEmpty: bool

    /** The indices stay in range, the size stays 0 or a power of two, and an empty buffer is rewound. */
    ghost predicate Valid()
      reads this
    {
      && buf.Length == size
      && (size == 0 ==> isEmpty)
      && (size > 0 ==> IsPow2(size) && mask == size - 1 && r < size && w < size)
      && (isEmpty ==> r == 0 && w == 0)
    }

    /** The bytes held, oldest first. */
    ghost function Contents(): (s: seq<byte>)
      requires Valid()
      reads this, buf
      ensures |s| <= size
    {
      if isEmpty then [] else Between(buf[..], r, w)
    }

    constructor (n: int)
      requires n <= MAX_INT_HEAD_BIT
      ensures Valid() && fresh(buf) && Contents() == []
      ensures n == 0 ==> size == 0
      ensures n != 0 ==> LeastPow2(size, if n < 2 then 2 else n)
    {
      r, w, isEmpty := 0, 0, true;
      if n == 0 {
        size, mask := 0, 0;
        buf := new byte[0];
      } else {
        var c := CeilToPowerOfTwo(n);
        size, mask := c.value, c.value - 1;
        buf := new byte[c.value](_ => 0);
      }
    }

    function Length(): (n: nat)
      requires Valid()
      reads this, buf
      ensures n == |Contents()|
    {
      if r == w then (if isEmpty then 0 else size)
      else if w > r then w - r
      else size - r + w
    }

    /** What can be written without growing. */
    function Free(): (n: nat)
      requires Valid()
      reads this, buf
      ensures n + Length() == size
    {
      if r == w then (if isEmpty then size else 0)
      else if w < r then r - w
      else size - w + r
    }

    /** The first `len` bytes, as the two slices on either side of the wrap-around. */
    method LazyRead(len: int) returns (head: seq<byte>, tail: seq<byte>)
      requires Valid()
      ensures len <= 0 ==> head + tail == []
      ensures len > 0 ==> head + tail == Contents()[..Min(len, |Contents()|)]
    {
      head, tail := [], [];
      if isEmpty {
        return;
      }
      if len <= 0 {
        return;
      }
      if w > r {
        var n := w - r;
        if n > len {
          n := len;
        }
        head := buf[r..r + n];
        return;
      }
      var n := size - r + w;
      if n > len {
        n := len;
      }
      if r + n <= size {
        head := buf[r..r + n];
      } else {
        var c1 := size - r;
        head := buf[r..];
        var c2 := n - c1;
        tail := buf[..c2];
      }
    }

    method LazyReadAll() returns (head: seq<byte>, tail: seq<byte>)
      requires Valid()
      ensures head + tail == Contents()
      ensures tail != [] ==> head != []
    {
      head, tail := [], [];
      if isEmpty {
        return;
      }
      if w > r {
        head := buf[r..w];
        return;
      }
      head := buf[r..];
      if w != 0 {
        tail := buf[..w];
      }
    }

    /** Empties the buffer and halves the storage, down to none at all. */
    method Reset()
      requires size == 0 || IsPow2(size)
      modifies this
      ensures Valid() && fresh(buf)
      ensures Contents() == [] && size == old(size) / 2
    {
      isEmpty := true;
      r, w := 0, 0;
      var newCap := size / 2;
      if size > 0 {
        HalfPow2(size);
      }
      buf := new byte[newCap](_ => 0);
      size := newCap;
      mask := newCap - 1;
    }

    /** An index brought back into the storage by masking. */
    method Masked(pos: nat) returns (i: nat)
      requires Valid() && pos < 2 * size
      ensures i == if pos < size then pos else pos - size
    {
      MaskWraps(pos, size);
      i := And(pos, mask);
    }

    /** Forgets the first `n` bytes; forgetting everything shrinks the storage. */
    method Shift(n: int)
      requires Valid()
      modifies this
      ensures Valid() && (buf == old(buf) || fresh(buf))
      ensures Contents() == old(Contents())[Min(if n < 0 then 0 else n, |old(Contents())|)..]
      ensures size == if n > 0 && n >= |old(Contents())| then old(size) / 2 else old(size)
    {
      if n <= 0 {
        return;
      }
      if n < Length() {
        BetweenAdvance(buf[..], r, w, n);
        r := Masked(r + n);
      } else {
        Reset();
      }
    }

    /** The copy out of a buffer whose contents reach or pass the end of the storage. */
    method CopyOut(p: array<byte>, n: nat)
      requires Valid() && p != buf && !isEmpty && w <= r
      requires n <= p.Length && n <= |Contents()|
      modifies p
      ensures p[..] == Contents()[..n] + old(p[n..])
    {
      BetweenTake(buf[..], r, w, n);
      if r + n <= size {
        CopyTo(p, 0, buf[r..r + n]);
      } else {
        var c1 := size - r;
        CopyTo(p, 0, buf[r..]);
        var c2 := n - c1;
        CopyTo(p, c1, buf[..c2]);
      }
      hide Between;
      Copied(old(p[..]), p[..], Contents()[..n]);
    }

    /** The end of a read: `n` bytes are consumed, and an emptied buffer shrinks. */
    method AdvanceTo(pos: nat, ghost n: nat)
      requires Valid() && 0 < n <= |Contents()|
      requires pos == if r + n < size then r + n else r + n - size
      modifies this
      ensures Valid() && (buf == old(buf) || fresh(buf))
      ensures Contents() == old(Contents())[n..]
      ensures size == if n == |old(Contents())| then old(size) / 2 else old(size)
    {
      BetweenAdvance(buf[..], r, w, n);
      r := pos;
      if r == w {
        Reset();
      }
    }

    /** The read of an unwrapped buffer. */
    method ReadStraight(p: array<byte>) returns (n: nat)
      requires Valid() && p != buf && p.Length > 0 && r < w
      modifies this, p
      ensures Valid() && (buf == old(buf) || fresh(buf))
      ensures Moved(old(Contents()), old(p[..]), n, p[..], Contents())
      ensures size == if n == |old(Contents())| then old(size) / 2 else old(size)
    {
      n := w - r;
      if n > p.Length {
        n := p.Length;
      }
      BetweenTake(buf[..], r, w, n);
      CopyTo(p, 0, buf[r..r + n]);
      Copied(old(p[..]), p[..], buf[r..r + n]);
      hide Between;
      AdvanceTo(r + n, n);
    }

    /** The read of a buffer that wraps around, or reaches the end of the storage. */
    method ReadWrapped(p: array<byte>) returns (n: nat)
      requires Valid() && p != buf && p.Length > 0 && !isEmpty && w <= r
      modifies this, p
      ensures Valid() && (buf == old(buf) || fresh(buf))
      ensures Moved(old(Contents()), old(p[..]), n, p[..], Contents())
      ensures size == if n == |old(Contents())| then old(size) / 2 else old(size)
    {
      n := size - r + w;
      if n > p.Length {
        n := p.Length;
      }
      CopyOut(p, n);
      var pos := Masked(r + n);
      AdvanceTo(pos, n);
    }

    /** Moves up to `p.Length` bytes out into `p`. `err` is the empty-buffer error. */
    method Read(p: array<byte>) returns (n: nat, err: bool)
      requires Valid() && p != buf
      modifies this, p
      ensures Valid() && (buf == old(buf) || fresh(buf))
      ensures err <==> p.Length > 0 && old(Contents()) == []
      ensures Moved(old(Contents()), old(p[..]), n, p[..], Contents())
      ensures size == if n > 0 && n == |old(Contents())| then old(size) / 2 else old(size)
    {
      if p.Length == 0 {
        return 0, false;
      }
      if isEmpty {
        return 0, true;
      }
      err := false;
      if w > r {
        n := ReadStraight(p);
      } else {
        n := ReadWrapped(p);
      }
    }

    method ReadByte() returns (b: Option<byte>)
      requires Valid()
      modifies this
      ensures Valid() && (buf == old(buf) || fresh(buf))
      ensures b == if old(Contents()) == [] then None else Some(old(Contents())[0])
      ensures Contents() == if old(Contents()) == [] then [] else old(Contents())[1..]
      ensures size == if |old(Contents())| == 1 then old(size) / 2 else old(size)
    {
      if isEmpty {
        return None;
      }
      b := Some(buf[r]);
      r := r + 1;
      if r == size {
        r := 0;
      }
      if r == w {
        Reset();
      }
    }

    /** Moves the contents to the start of a storage with room for `need` more bytes. The
        `isEmpty` flag is left set; the writer that called this clears it. */
    method Malloc(need: nat) returns (ok: bool)
      requires Valid() && need > 0
      modifies this
      ensures ok <==> (old(size) == 0 && need < 4096) || old(size) + need <= MAX_INT_HEAD_BIT
      ensures !ok ==> unchanged(this)
      ensures ok ==> fresh(buf) && buf.Length == size && IsPow2(size) && mask == size - 1 && r == 0
      ensures ok ==> w == |old(Contents())| && old(size) + need <= size && buf[..w] == old(Contents())
      ensures ok ==> if old(size) == 0 && need < 4096 then size == 4096 else LeastPow2(size, Max2(old(size) + need))
    {
      var newCap;
      if size == 0 && need < INIT_SIZE {
        newCap := INIT_SIZE;
        HeadBit();
      } else {
        var c := CeilToPowerOfTwo(size + need);
        if c.None? {
          return false;
        }
        newCap := c.value;
      }
      var newBuf := new byte[newCap](_ => 0);
      var oldLen := Length();
      var _, _ := Read(newBuf);
      buf := newBuf;
      r := 0;
      w := oldLen;
      size := newCap;
      mask := newCap - 1;
      return true;
    }

    /** Room has been made: the storage is sound and holds `s`, whatever `isEmpty` says. */
    ghost predicate Holds(s: seq<byte>)
      reads this, buf
    {
      && buf.Length == size && IsPow2(size) && mask == size - 1
      && r < size && w < size
      && (if s == [] then r == 0 && w == 0 else s == Between(buf[..], r, w))
    }

    /** The copying half of `Write`. */
    method Store(p: seq<byte>, ghost s: seq<byte>)
      requires Holds(s) && 0 < |p| <= size - |s|
      modifies this, buf
      ensures Valid() && buf == old(buf) && size == old(size)
      ensures Contents() == s + p
    {
      var n := |p|;
      ghost var b, w0 := buf[..], w;
      if w >= r {
        var c1 := size - w;
        if c1 >= n {
          CopyTo(buf, w, p);
          w := w + n;
        } else {
          CopyTo(buf, w, p[..c1]);
          var c2 := n - c1;
          CopyTo(buf, 0, p[c1..]);
          w := c2;
        }
      } else {
        CopyTo(buf, w, p);
        w := w + n;
      }
      if w == size {
        w := 0;
      }
      isEmpty := false;
      BetweenAppend(b, buf[..], r, w0, w, p, s == []);
    }

    /** Appends `p`, growing when it does not fit. Fails, as the program panics, only when
        the storage would have to pass 2^62 bytes. */
    method Write(p: seq<byte>) returns (ok: bool)
      requires Valid()
      modifies this, buf
      ensures !ok <==> |p| > old(Free()) && !(old(size) == 0 && |p| < INIT_SIZE) && |old(Contents())| + |p| > MAX_INT_HEAD_BIT
      ensures Valid() && (buf == old(buf) || fresh(buf))
      ensures Contents() == if ok then old(Contents()) + p else old(Contents())
      ensures |p| <= old(Free()) ==> size == old(size)
    {
      var n := |p|;
      if n == 0 {
        return true;
      }
      var free := Free();
      if n > free {
        var fits := Malloc(n - free);
        if !fits {
          return false;
        }
      }
      Store(p, old(Contents()));
      return true;
    }

    method WriteByte(c: byte) returns (ok: bool)
      requires Valid()
      modifies this, buf
      ensures !ok <==> old(Free()) == 0 && old(size) > 0 && |old(Contents())| + 1 > MAX_INT_HEAD_BIT
      ensures Valid() && (buf == old(buf) || fresh(buf))
      ensures Contents() == if ok then old(Contents()) + [c] else old(Contents())
    {
      if Free() < 1 {
        var fits := Malloc(1);
        if !fits {
          return false;
        }
      }
      StoreByte(c, old(Contents()));
      return true;
    }

    /** The storing half of `WriteByte`. */
    method StoreByte(c: byte, ghost s: seq<byte>)
      requires Holds(s) && |s| < size
      modifies this, buf
      ensures Valid() && buf == old(buf) && size == old(size)
      ensures Contents() == s + [c]
    {
      ghost var b, w0 := buf[..], w;
      buf[w] := c;
      w := w + 1;
      if w == size {
        w := 0;
      }
      isEmpty := false;
      BetweenAppend(b, buf[..], r, w0, w, [c], s == []);
    }
  }

  function Max2(n: int): int {
    if n < 2 then 2 else n
  }

  // ---------------------------------------------------------------- whole runs

  datatype RingOp =
    | DoWrite(p: seq<byte>)
    | DoWriteByte(c: byte)
    | DoRead(room: nat)
    | DoReadByte
    | DoPeek(n: int)
    | DoPeekAll
    | DoShift(n: int)

  /** The plain byte sequence the buffer stands for: its next value and the bytes handed out. */
  function SpecStep(s: seq<byte>, op: RingOp): (seq<byte>, seq<byte>) {
    match op
    case DoWrite(p) => (s + p, [])
    case DoWriteByte(c) => (s + [c], [])
    case DoRead(n) => (s[Min(n, |s|)..], s[..Min(n, |s|)])
    case DoReadByte => (s[Min(1, |s|)..], s[..Min(1, |s|)])
    case DoPeek(n) => (s, s[..Min(if n < 0 then 0 else n, |s|)])
    case DoPeekAll => (s, s)
    case DoShift(n) => (s[Min(if n < 0 then 0 else n, |s|)..], [])
  }

  function SpecRun(ops: seq<RingOp>): (seq<byte>, seq<seq<byte>>) {
    if ops == [] then ([], [])
    else
      var (s, outs) := SpecRun(ops[..|ops| - 1]);
      var (s', out) := SpecStep(s, ops[|ops| - 1]);
      (s', outs + [out])
  }

  /** Performs one operation; not `ok` where the program panics. */
  method Perform(ring: RingBuffer, op: RingOp) returns (ok: bool, out: seq<byte>)
    requires ring.Valid()
    modifies ring, ring.buf
    ensures ring.Valid() && (ring.buf == old(ring.buf) || fresh(ring.buf))
    ensures ok ==> (ring.Contents(), out) == SpecStep(old(ring.Contents()), op)
    ensures !ok ==> |SpecStep(old(ring.Contents()), op).0| > MAX_INT_HEAD_BIT
  {
    ok, out := true, [];
    ghost var s := ring.Contents();
    match op {
      case DoWrite(p) => ok := ring.Write(p);
      case DoWriteByte(c) => ok := ring.WriteByte(c);
      case DoRead(n) =>
        var p := new byte[n](_ => 0);
        var k, _ := ring.Read(p);
        out := p[..k];
        assert out == s[..k];
      case DoReadByte =>
        var b := ring.ReadByte();
        out := if b.Some? then [b.value] else [];
        assert s != [] ==> s[..1] == [s[0]];
      case DoPeek(n) =>
        var head, tail := ring.LazyRead(n);
        out := head + tail;
      case DoPeekAll =>
        var head, tail := ring.LazyReadAll();
        out := head + tail;
      case DoShift(n) =>
        ring.Shift(n);
    }
  }

  /** Every operation sequence on a new buffer of any initial size, through growth, wrap-around
      and shrinking, hands out exactly what the byte sequence would. It stops early only where
      the program panics, which takes more than 2^62 bytes. */
  method RunOps(initial: int, ops: seq<RingOp>) returns (outs: seq<seq<byte>>)
    requires initial <= MAX_INT_HEAD_BIT
    ensures |outs| <= |ops| && outs == SpecRun(ops[..|outs|]).1
    ensures |outs| < |ops| ==> |SpecRun(ops[..|outs| + 1]).0| > MAX_INT_HEAD_BIT
  {
    var ring := new RingBuffer(initial);
    outs := [];
    for i := 0 to |ops|
      invariant fresh(ring) && fresh(ring.buf) && ring.Valid()
      invariant |outs| == i && SpecRun(ops[..i]) == (ring.Contents(), outs)
    {
      assert ops[..i + 1][..i] == ops[..i];
      var ok, out := Perform(ring, ops[i]);
      if !ok {
        return;
      }
      outs := outs + [out];
    }
    assert ops[..|ops|] == ops;
  }
}
