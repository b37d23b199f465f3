/** Entity ids: a time stamp, the server and process numbers and a sequence number, packed into
    one integer. */
module IdGenerator {
  import opened Common
  import opened BitOps

  const EPOCH := 1577808000
  const TIMESTAMP_MAX := 0x3F_FFFF_FFFF
  const SVR_ID_MAX := 1023
  const SVR_TAG_MAX := 255
  const SEQUENCE_MASK := 15
  const SEQUENCE_BITS := 4
  const SVR_ID_SHIFT := 12
  const TIMESTAMP_SHIFT := 22
  /** One past the largest number of 60 bits. */
  const ID_LIMIT := 0x1000_0000_0000_0000

  datatype Generator = Generator(timestamp: int, serverId: nat, serverTag: nat, sequence: nat)

  ghost predicate Valid(g: Generator) {
    g.serverId <= SVR_ID_MAX && g.serverTag <= SVR_TAG_MAX && g.sequence <= SEQUENCE_MASK
  }

  /** The id's fields, shifted and or-ed together. */
  function Pack(t: nat, serverId: nat, serverTag: nat, sequence: nat): nat {
    Or(Or(Or(Shl(t, TIMESTAMP_SHIFT), Shl(serverId, SVR_ID_SHIFT)), Shl(serverTag, SEQUENCE_BITS)), sequence)
  }

  lemma SmallWidths()
    ensures Pow2(2) == 4 && Pow2(4) == 16 && Pow2(8) == 256
  {
    Pow2Sum(4, 4);
  }

  lemma Widths()
    ensures Pow2(4) == 16 && Pow2(8) == 256 && Pow2(10) == 1024 && Pow2(12) == 4096
    ensures Pow2(22) == 4194304
  {
    SmallWidths();
    hide Pow2;
    Pow2Sum(8, 2);
    Pow2Sum(8, 4);
    Pow2Sum(12, 10);
  }

  /** The fields do not overlap. */
  lemma PackIsSum(t: nat, id: nat, tag: nat, sequence: nat)
    requires id <= SVR_ID_MAX && tag <= SVR_TAG_MAX && sequence <= SEQUENCE_MASK
    ensures Pack(t, id, tag, sequence) == t * 4194304 + id * 4096 + tag * 16 + sequence
  {
    Widths();
    hide Or, Pow2;
    OrCommutes(Shl(t, 22), Shl(id, 12));
    OrDisjoint(Shl(id, 12), t, 22);
    OrCommutes(Shl(t * 1024 + id, 12), Shl(tag, 4));
    OrDisjoint(Shl(tag, 4), t * 1024 + id, 12);
    OrCommutes(Shl((t * 1024 + id) * 256 + tag, 4), sequence);
    OrDisjoint(sequence, (t * 1024 + id) * 256 + tag, 4);
  }

  /** An id tells its four fields. */
  lemma PackInjective(t: nat, id: nat, tag: nat, q: nat, t': nat, id': nat, tag': nat, q': nat)
    requires id <= SVR_ID_MAX && tag <= SVR_TAG_MAX && q <= SEQUENCE_MASK
    requires id' <= SVR_ID_MAX && tag' <= SVR_TAG_MAX && q' <= SEQUENCE_MASK
    requires Pack(t, id, tag, q) == Pack(t', id', tag', q')
    ensures t == t' && id == id' && tag == tag' && q == q'
  {
    PackIsSum(t, id, tag, q);
    PackIsSum(t', id', tag', q');
  }

  lemma PackDistinct(t: nat, id: nat, tag: nat, q: nat, t': nat, id': nat, tag': nat, q': nat)
    requires id <= SVR_ID_MAX && tag <= SVR_TAG_MAX && q <= SEQUENCE_MASK
    requires id' <= SVR_ID_MAX && tag' <= SVR_TAG_MAX && q' <= SEQUENCE_MASK
    requires (id, tag) != (id', tag')
    ensures Pack(t, id, tag, q) != Pack(t', id', tag', q')
  {
    hide Pack;
    if Pack(t, id, tag, q) == Pack(t', id', tag', q') {
      PackInjective(t, id, tag, q, t', id', tag', q');
    }
  }

  /** Ids are ordered by time, then by sequence number. */
  lemma PackOrdered(id: nat, tag: nat, t: nat, q: nat, t': nat, q': nat)
    requires id <= SVR_ID_MAX && tag <= SVR_TAG_MAX && q <= SEQUENCE_MASK && q' <= SEQUENCE_MASK
    ensures Pack(t, id, tag, q) < Pack(t', id, tag, q') <==> t < t' || (t == t' && q < q')
  {
    PackIsSum(t, id, tag, q);
    PackIsSum(t', id, tag, q');
  }

  lemma PackFits(t: nat, id: nat, tag: nat, q: nat)
    requires t <= TIMESTAMP_MAX && id <= SVR_ID_MAX && tag <= SVR_TAG_MAX && q <= SEQUENCE_MASK
    ensures Pack(t, id, tag, q) < ID_LIMIT
  {
    PackIsSum(t, id, tag, q);
  }

  /** A call at second `now`. When the sequence wraps, the wait ends with a clock reading in
      milliseconds, out of range: the call gives 0 and leaves the time stamp. */
  function Next(g: Generator, now: int): (r: (Generator, nat))
    requires now >= EPOCH
    ensures Valid(g) ==> Valid(r.0)
  {
    var q := if g.timestamp == now then (g.sequence + 1) % 16 else 0;
    var h := g.(sequence := q);
    if (g.timestamp == now && q == 0) || now - EPOCH > TIMESTAMP_MAX then (h, 0)
    else (h.(timestamp := now), Pack(now - EPOCH, g.serverId, g.serverTag, q))
  }

  class EntityIdGenerator {
    var timestamp: int
    const serverId: nat
    const serverTag: nat
    var sequence: nat

    constructor (id0: nat, id1: nat)
      requires id0 <= SVR_ID_MAX && id1 <= SVR_TAG_MAX
      ensures State() == Generator(0, id0, id1, 0)
    {
      timestamp, serverId, serverTag, sequence := 0, id0, id1, 0;
    }

    static method Create(id0: int, id1: int) returns (g: Option<EntityIdGenerator>)
      ensures g.Some? <==> 0 <= id0 <= 1023 && 0 <= id1 <= 255
      ensures g.Some? ==> fresh(g.value) && g.value.State() == Generator(0, id0, id1, 0)
    {
      if id0 < 0 || id0 > SVR_ID_MAX {
        return None;
      }
      if id1 < 0 || id1 > SVR_TAG_MAX {
        return None;
      }
      var x := new EntityIdGenerator(id0, id1);
      return Some(x);
    }

    ghost function State(): Generator
      reads this
    {
      Generator(timestamp, serverId, serverTag, sequence)
    }

    /** `now` is the clock in seconds, `millis` are its later readings in milliseconds. */
    method NextVal(now: int, millis: nat -> int) returns (r: nat)
      requires now >= EPOCH && forall i :: millis(i) >= 1000 * now
      requires Valid(State())
      modifies this
      ensures State() == Next(old(State()), now).0 && r == Next(old(State()), now).1
    {
      hide Pack, And, Pow2;
      var clock := now;
      if timestamp == clock {
        Widths();
        AndMask(sequence + 1, 4);
        sequence := And(sequence + 1, SEQUENCE_MASK);
        if sequence == 0 {
          var i := 0;
          while clock <= timestamp
            invariant timestamp == now && sequence == 0
            invariant clock == now || clock >= 1000 * now
            decreases clock <= timestamp
          {
            clock := millis(i);
            i := i + 1;
          }
        }
      } else {
        sequence := 0;
      }
      var t := clock - EPOCH;
      if t > TIMESTAMP_MAX {
        return 0;
      }
      timestamp := clock;
      r := Pack(t, serverId, serverTag, sequence);
    }
  }

  // ---------------------------------------------------------------- runs

  /** The clock never goes back and stays in range. */
  ghost predicate Clock(clock: seq<int>) {
    && (forall i :: 0 <= i < |clock| ==> EPOCH <= clock[i] <= EPOCH + TIMESTAMP_MAX)
    && (forall i, j :: 0 <= i < j < |clock| ==> clock[i] <= clock[j])
  }

  /** The generator after the first `n` calls, one at each time of `clock`. */
  function After(g: Generator, clock: seq<int>, n: nat): Generator
    requires n <= |clock| && forall i :: 0 <= i < |clock| ==> clock[i] >= EPOCH
  {
    if n == 0 then g else Next(After(g, clock, n - 1), clock[n - 1]).0
  }

  function Id(g: Generator, clock: seq<int>, i: nat): nat
    requires i < |clock| && forall i :: 0 <= i < |clock| ==> clock[i] >= EPOCH
  {
    Next(After(g, clock, i), clock[i]).1
  }

  function New(id0: nat, id1: nat): Generator {
    Generator(0, id0, id1, 0)
  }

  /** How many calls right before call `i` came in the same second. */
  function Burst(clock: seq<int>, i: nat): (n: nat)
    requires i < |clock|
    ensures n <= i
  {
    if i == 0 || clock[i - 1] != clock[i] then 0 else Burst(clock, i - 1) + 1
  }

  /** No second sees more than 16 calls. */
  ghost predicate Paced(clock: seq<int>) {
    forall i :: 0 <= i && i + 16 < |clock| ==> clock[i] != clock[i + 16]
  }

  lemma {:induction false} BurstSame(clock: seq<int>, i: nat)
    requires i < |clock|
    ensures forall j :: i - Burst(clock, i) <= j <= i ==> clock[j] == clock[i]
  {
    if i > 0 && clock[i - 1] == clock[i] {
      BurstSame(clock, i - 1);
    }
  }

  lemma TooFast(clock: seq<int>, k: nat)
    requires k + 16 < |clock| && clock[k] == clock[k + 16]
    ensures !Paced(clock)
  {
  }

  lemma {:induction false} BurstBelow(clock: seq<int>, i: nat)
    requires i < |clock| && Paced(clock)
    ensures Burst(clock, i) < 16
  {
    BurstSame(clock, i);
    if Burst(clock, i) >= 16 {
      TooFast(clock, i - 16);
    }
  }

  /** While bursts stay below 16, a call packs its second and its place in the burst. */
  lemma {:induction false} IdIs(id0: nat, id1: nat, clock: seq<int>, i: nat)
    requires id0 <= SVR_ID_MAX && id1 <= SVR_TAG_MAX && Clock(clock) && i < |clock|
    requires forall j :: 0 <= j <= i ==> Burst(clock, j) < 16
    ensures After(New(id0, id1), clock, i + 1) == Generator(clock[i], id0, id1, Burst(clock, i))
    ensures Id(New(id0, id1), clock, i) == Pack(clock[i] - EPOCH, id0, id1, Burst(clock, i))
    ensures Id(New(id0, id1), clock, i) == (clock[i] - 1577808000) * 4194304 + id0 * 4096 + id1 * 16 + Burst(clock, i)
  {
    hide Pack;
    if i > 0 {
      IdIs(id0, id1, clock, i - 1);
    }
    PackIsSum(clock[i] - EPOCH, id0, id1, Burst(clock, i));
  }

  /** One call. It fails when the sixteen numbers of its second are used up or the time stamp has
      more than 38 bits; it then leaves the time stamp as it was. */
  lemma NextIs(g: Generator, now: int)
    requires Valid(g) && now >= 1577808000
    ensures
      var t, q := now - 1577808000, if g.timestamp == now then (g.sequence + 1) % 16 else 0;
      Next(g, now) ==
      if (g.timestamp == now && g.sequence == 15) || t >= 0x40_0000_0000 then (g.(sequence := q), 0)
      else (g.(timestamp := now, sequence := q), t * 4194304 + g.serverId * 4096 + g.serverTag * 16 + q)
  {
    hide Pack;
    PackIsSum(now - EPOCH, g.serverId, g.serverTag, if g.timestamp == now then (g.sequence + 1) % 16 else 0);
  }

  /** The 17th call of a second gives 0. */
  lemma Seventeenth(id0: nat, id1: nat, clock: seq<int>, i: nat)
    requires id0 <= SVR_ID_MAX && id1 <= SVR_TAG_MAX && Clock(clock) && i < |clock|
    requires Burst(clock, i) == 16 && forall j :: 0 <= j < i ==> Burst(clock, j) < 16
    ensures Id(New(id0, id1), clock, i) == 0
  {
    IdIs(id0, id1, clock, i - 1);
  }

  ghost predicate Increasing(id0: nat, id1: nat, clock: seq<int>)
    requires forall i :: 0 <= i < |clock| ==> clock[i] >= EPOCH
  {
    forall i, j :: 0 <= i < j < |clock| ==> Id(New(id0, id1), clock, i) < Id(New(id0, id1), clock, j)
  }

  /** Ids rise strictly exactly when no second sees more than 16 calls. */
  lemma IncreasingIffPaced(id0: nat, id1: nat, clock: seq<int>)
    requires id0 <= SVR_ID_MAX && id1 <= SVR_TAG_MAX && Clock(clock)
    ensures Increasing(id0, id1, clock) <==> Paced(clock)
  {
    if Paced(clock) {
      forall i, j | 0 <= i < j < |clock|
        ensures Id(New(id0, id1), clock, i) < Id(New(id0, id1), clock, j)
      {
        PacedOrder(id0, id1, clock, i, j);
      }
    } else {
      var k :| 0 <= k && k + 16 < |clock| && clock[k] == clock[k + 16];
      var i := FirstLongBurst(clock, k);
      Seventeenth(id0, id1, clock, i);
      assert Id(New(id0, id1), clock, i - 1) >= 0;
    }
  }

  lemma PacedIdIs(id0: nat, id1: nat, clock: seq<int>, i: nat)
    requires id0 <= SVR_ID_MAX && id1 <= SVR_TAG_MAX && Clock(clock) && Paced(clock) && i < |clock|
    ensures Burst(clock, i) < 16 && Id(New(id0, id1), clock, i) == Pack(clock[i] - EPOCH, id0, id1, Burst(clock, i))
  {
    hide Id, After, Burst, Pack;
    forall k | 0 <= k <= i
      ensures Burst(clock, k) < 16
    {
      BurstBelow(clock, k);
    }
    IdIs(id0, id1, clock, i);
  }

  lemma PacedOrder(id0: nat, id1: nat, clock: seq<int>, i: nat, j: nat)
    requires id0 <= SVR_ID_MAX && id1 <= SVR_TAG_MAX && Clock(clock) && Paced(clock) && i < j < |clock|
    ensures Id(New(id0, id1), clock, i) < Id(New(id0, id1), clock, j) < 0x1000_0000_0000_0000
  {
    hide Id, Burst, Pack, After, Paced, Pow2;
    PacedIdIs(id0, id1, clock, i);
    PacedIdIs(id0, id1, clock, j);
    BurstRises(clock, i, j);
    PackOrdered(id0, id1, clock[i] - EPOCH, Burst(clock, i), clock[j] - EPOCH, Burst(clock, j));
    PackFits(clock[j] - EPOCH, id0, id1, Burst(clock, j));
  }

  lemma {:induction false} BurstRises(clock: seq<int>, i: nat, j: nat)
    requires i < j < |clock| && Clock(clock)
    ensures clock[i] < clock[j] || Burst(clock, i) < Burst(clock, j)
  {
    if clock[i] == clock[j] && i < j - 1 {
      assert clock[j - 1] == clock[j];
      BurstRises(clock, i, j - 1);
    }
  }

  /** The first call with 16 calls before it in the same second. */
  lemma FirstLongBurst(clock: seq<int>, k: nat) returns (i: nat)
    requires Clock(clock) && k + 16 < |clock| && clock[k] == clock[k + 16]
    ensures 0 < i < |clock| && Burst(clock, i) == 16 && forall j :: 0 <= j < i ==> Burst(clock, j) < 16
  {
    i := 0;
    while Burst(clock, i) != 16
      invariant i <= k + 16 && forall j :: 0 <= j < i ==> Burst(clock, j) < 16
      invariant Burst(clock, i) <= 16
      decreases k + 16 - i
    {
      if i == k + 16 {
        LongBurst(clock, k, 16);
        assert false;
      }
      i := i + 1;
    }
  }

  lemma {:induction false} LongBurst(clock: seq<int>, k: nat, n: nat)
    requires Clock(clock) && k + n < |clock| && clock[k] == clock[k + n]
    ensures Burst(clock, k + n) >= n
  {
    if n > 0 {
      assert clock[k] <= clock[k + n - 1] <= clock[k + n];
      LongBurst(clock, k, n - 1);
    }
  }

  /** After the failed 17th call of a second the 18th repeats the second id of that second. */
  lemma EighteenthRepeats(id0: nat, id1: nat)
    requires id0 <= SVR_ID_MAX && id1 <= SVR_TAG_MAX
    ensures var clock := seq(18, _ => EPOCH);
            Id(New(id0, id1), clock, 17) == Id(New(id0, id1), clock, 1)
  {
    hide Pack;
    var clock := seq(18, _ => EPOCH);
    forall j | 0 <= j < 18
      ensures Burst(clock, j) == j
    {
      LongBurst(clock, 0, j);
    }
    IdIs(id0, id1, clock, 15);
    IdIs(id0, id1, clock, 1);
    assert After(New(id0, id1), clock, 17) == Generator(EPOCH, id0, id1, 0);
  }

  lemma {:induction false} AfterKeepsIds(id0: nat, id1: nat, clock: seq<int>, n: nat)
    requires id0 <= SVR_ID_MAX && id1 <= SVR_TAG_MAX
    requires n <= |clock| && forall i :: 0 <= i < |clock| ==> clock[i] >= EPOCH
    ensures var g := After(New(id0, id1), clock, n); g.serverId == id0 && g.serverTag == id1
  {
    if n > 0 {
      AfterKeepsIds(id0, id1, clock, n - 1);
    }
  }

  /** Generators of different processes, whatever their clocks and however fast they are called:
      if both give the same id, it is 0, the answer of a call that failed. */
  lemma DistinctGenerators(id0: nat, id1: nat, clock: seq<int>, i: nat, id0': nat, id1': nat, clock': seq<int>, i': nat)
    requires id0 <= SVR_ID_MAX && id1 <= SVR_TAG_MAX && id0' <= SVR_ID_MAX && id1' <= SVR_TAG_MAX
    requires (id0, id1) != (id0', id1') && i < |clock| && i' < |clock'|
    requires forall k :: 0 <= k < |clock| ==> clock[k] >= EPOCH
    requires forall k :: 0 <= k < |clock'| ==> clock'[k] >= EPOCH
    ensures Id(New(id0, id1), clock, i) == Id(New(id0', id1'), clock', i') ==> Id(New(id0, id1), clock, i) == 0
  {
    hide Pack;
    AfterKeepsIds(id0, id1, clock, i);
    AfterKeepsIds(id0', id1', clock', i');
    var x, x' := Id(New(id0, id1), clock, i), Id(New(id0', id1'), clock', i');
    if x == x' != 0 {
      var q, q' := Next(After(New(id0, id1), clock, i), clock[i]).0.sequence, Next(After(New(id0', id1'), clock', i'), clock'[i']).0.sequence;
      assert x == Pack(clock[i] - EPOCH, id0, id1, q) && x' == Pack(clock'[i'] - EPOCH, id0', id1', q');
      PackInjective(clock[i] - EPOCH, id0, id1, q, clock'[i'] - EPOCH, id0', id1', q');
    }
  }

  /** With at most 16 calls a second no call fails, and they never give the same id. */
  lemma PacedDistinct(id0: nat, id1: nat, clock: seq<int>, i: nat, id0': nat, id1': nat, clock': seq<int>, i': nat)
    requires id0 <= SVR_ID_MAX && id1 <= SVR_TAG_MAX && id0' <= SVR_ID_MAX && id1' <= SVR_TAG_MAX
    requires (id0, id1) != (id0', id1')
    requires Clock(clock) && Paced(clock) && i < |clock| && Clock(clock') && Paced(clock') && i' < |clock'|
    ensures Id(New(id0, id1), clock, i) != Id(New(id0', id1'), clock', i')
  {
    hide Id, After, Burst, Pack, Paced;
    PacedIdIs(id0, id1, clock, i);
    PacedIdIs(id0', id1', clock', i');
    PackDistinct(clock[i] - EPOCH, id0, id1, Burst(clock, i), clock'[i'] - EPOCH, id0', id1', Burst(clock', i'));
  }
}
