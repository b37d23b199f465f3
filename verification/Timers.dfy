/** The timer manager: adding, cancelling, popping and re-arming timers on the chain of wheels. */
module Timers {
  import opened Common
  import opened BitOps
  import opened DelayQueue
  import opened TimerWheel

  // ---------------------------------------------------------------- arithmetic of slots

  /** The slot of `e` on a wheel holds `e`, and is one of its slots. */
  lemma SlotHolds(start: int, e: int, c: Config)
    requires ConfigOk(c) && start <= e < start + Interval(c)
    ensures 0 <= (e - start) / c.tick < c.wheelSize
    ensures start + (e - start) / c.tick * c.tick <= e < start + (e - start) / c.tick * c.tick + c.tick
  {
    var d, k := e - start, (e - start) / c.tick;
    assert d == k * c.tick + d % c.tick;
    if k >= c.wheelSize {
      MulMonotone(c.tick, c.wheelSize, k);
      assert false;
    }
  }

  /** A wheel made for `e` starts a whole number of intervals later, and reaches `e`. */
  lemma TruncateLands(start: int, e: int, interval: int)
    requires interval > 0 && start + interval <= e
    ensures var v := Truncate(start, e, interval);
            start + interval <= v <= e < v + interval && (v - start) % interval == 0
  {
    var d, k := e - start, (e - start) / interval;
    assert d == k * interval + d % interval;
    DivAtLeast(d, interval, 1);
    MulMonotone(interval, 1, k);
    DivModUnique(k * interval, interval, k, 0);
  }

  /** Two wheel starts on the same grid, one above the other, are an interval apart. */
  lemma GridGap(base: int, a: int, b: int, interval: int)
    requires interval > 0 && (a - base) % interval == 0 && (b - base) % interval == 0 && a < b
    ensures a + interval <= b
  {
    var p, q := (a - base) / interval, (b - base) / interval;
    assert a - base == p * interval && b - base == q * interval;
    if q <= p {
      MulMonotone(interval, q, p);
      assert false;
    }
    MulMonotone(interval, p + 1, q);
    assert (p + 1) * interval == p * interval + interval;
  }

  lemma GridSum(base: int, a: int, b: int, interval: int)
    requires interval > 0 && (a - base) % interval == 0 && (b - a) % interval == 0
    ensures (b - base) % interval == 0
  {
    var p, q := (a - base) / interval, (b - a) / interval;
    assert b - base == (p + q) * interval;
    DivModUnique(b - base, interval, p + q, 0);
  }

  // ---------------------------------------------------------------- what placing changes

  /** Only timer `t` changes, and keeps its repeat duration. */
  ghost predicate Elsewhere(s: State, s': State, t: nat)
  {
    && Kept(s, s') && Listings(s, s', Some(t)) && s'.fired == s.fired && s'.cancelled == s.cancelled
    && t < |s.timers| == |s'.timers|
    && (forall u :: 0 <= u < |s.timers| && u != t ==> s'.timers[u] == s.timers[u])
    && s'.timers[t].repeatNs == s.timers[t].repeatNs
  }

  lemma ElsewhereTrans(s: State, s': State, s'': State, t: nat)
    requires Elsewhere(s, s', t) && Elsewhere(s', s'', t)
    ensures Elsewhere(s, s'', t)
  {
    ListingsTrans(s, s', s'', Some(t));
    hide Listings;
  }

  lemma ElsewhereSelf(s: State, t: nat)
    requires t < |s.timers|
    ensures Elsewhere(s, s, t)
  {
  }

  lemma QuietElsewhere(s: State, s': State, t: nat)
    requires Quiet(s, s', None) && s'.timers == s.timers && s'.fired == s.fired && s'.cancelled == s.cancelled
    requires t < |s.timers|
    ensures Elsewhere(s, s', t)
  {
    hide Lists;
  }

  lemma PutElsewhere(s: State, b: nat, t: nat, e: int)
    requires b < |s.buckets| && t < |s.timers|
    ensures Elsewhere(s, PutTimer(s, b, t, e), t)
  {
    var s' := PutTimer(s, b, t, e);
    forall d: nat, u: nat
      ensures u != t && Lists(s', d, u) ==> Lists(s, d, u)
      ensures Lists(s, d, u) ==> Lists(s', d, u)
    {
      ListsWith(s, s', b, Entry(t, s.elements), d, u);
    }
    hide Lists;
  }

  lemma ListsWith(s: State, s': State, b: nat, more: Entry, d: nat, u: nat)
    requires b < |s.buckets| && s'.buckets == s.buckets[b := s.buckets[b].(entries := s.buckets[b].entries + [more])]
    ensures (u != more.timer && Lists(s', d, u) ==> Lists(s, d, u)) && (Lists(s, d, u) ==> Lists(s', d, u))
  {
    if Lists(s, d, u) {
      var e :| e in s.buckets[d].entries && e.timer == u;
      assert e in s'.buckets[d].entries;
    }
  }

  lemma EnqueueElsewhere(s: State, b: nat, t: nat, tick: int)
    requires b < |s.buckets| && t < |s.timers| && tick > 0
    ensures Elsewhere(s, EnqueueBucket(s, b, tick), t)
  {
    SameEntries(s, EnqueueBucket(s, b, tick), Some(t));
    hide Listings;
  }

  /** The overflow pointer leads one step along the chain, to a later wheel. */
  lemma NextWheel(s: State, pos: nat, c: Config, running: Option<nat>)
    requires Inv(s, c, running) && pos < |s.chain|
    ensures s.chain[pos] < |s.wheels|
    ensures s.wheels[s.chain[pos]].overflow == NextInChain(s.chain, pos)
    ensures pos + 1 < |s.chain| ==>
              s.chain[pos + 1] < |s.wheels|
              && s.wheels[s.chain[pos]].start + Interval(c) <= s.wheels[s.chain[pos + 1]].start
  {
    hide SlotsOk, QueueOk, TimersOk, FiredOk, SpacedOk, CancelledOk, Interval;
  }

  lemma InvConfig(s: State, c: Config, running: Option<nat>)
    requires Inv(s, c, running)
    ensures ConfigOk(c)
  {
  }

  /** Slot `k` of wheel `w` holds a bucket that starts with the slot. */
  lemma SlotBucket(s: State, w: nat, k: int, c: Config, running: Option<nat>)
    requires Inv(s, c, running) && w < |s.wheels| && k in s.wheels[w].slots
    ensures s.wheels[w].slots[k] < |s.buckets|
    ensures s.buckets[s.wheels[w].slots[k]].expiration == s.wheels[w].start + k * c.tick
  {
    hide WheelsOk, QueueOk, TimersOk, FiredOk, SpacedOk, CancelledOk, Interval;
  }

  /** The wheel made for `e` behind position `pos` keeps the chain in order. */
  lemma NewWheelFits(s: State, pos: nat, t: nat, e: int, c: Config, running: Option<nat>)
    requires Inv(s, c, running) && pos < |s.chain| && s.chain[pos] < |s.wheels| && t < |s.timers|
    requires s.wheels[s.chain[pos]].start + Interval(c) <= e
    requires pos + 1 < |s.chain| && s.chain[pos + 1] < |s.wheels| ==> e < s.wheels[s.chain[pos + 1]].start
    ensures Interval(c) > 0
    ensures
      var v := Truncate(s.wheels[s.chain[pos]].start, e, Interval(c));
      var s' := InsertWheel(s, pos, v);
      && Inv(s', c, running) && Elsewhere(s, s', t)
      && pos + 1 < |s'.chain| && s'.chain[pos] == s.chain[pos] < |s'.wheels|
      && s'.wheels[s.chain[pos]].overflow == Some(s'.chain[pos + 1])
      && s'.chain[pos + 1] < |s'.wheels| && s.wheels[s.chain[pos]].start + Interval(c) <= s'.wheels[s'.chain[pos + 1]].start <= e
  {
    hide SlotsOk, QueueOk, TimersOk, FiredOk, SpacedOk, CancelledOk, Interval, Truncate;
    NextWheel(s, pos, c, running);
    var a, base := s.wheels[s.chain[pos]].start, s.wheels[0].start;
    var v := Truncate(a, e, Interval(c));
    TruncateLands(a, e, Interval(c));
    GridSum(base, a, v, Interval(c));
    if pos + 1 < |s.chain| {
      GridGap(base, v, s.wheels[s.chain[pos + 1]].start, Interval(c));
    }
    InsertWheelOk(s, pos, v, c, running);
    InsertWheelStart(s, pos, v, Interval(c), pos + 1);
    QuietElsewhere(s, InsertWheel(s, pos, v), t);
  }

  /** `t` is in a queued bucket and due at `e`. */
  ghost predicate PlacedAt(s: State, t: nat, e: int) {
    t < |s.timers| && s.timers[t].expiration == e && s.timers[t].bucket.Some? && NoneOrQueued(s, t)
  }

  lemma PlacedParts(s: State, u: nat, e: int)
    requires PlacedAt(s, u, e)
    ensures u < |s.timers| && s.timers[u].bucket.Some?
  {
  }

  lemma FreshWheelOk(wheels: seq<Wheel>, interval: int, now: nat)
    requires wheels == [Wheel(now, map[], None)] && interval > 0
    ensures WheelsOk(wheels, [0], interval)
  {
    assert [0 as nat][0] == 0;
  }

  function FreshState(now: nat): State {
    State([Wheel(now, map[], None)], [0], 0, [], [], multiset{}, [], 0, [], map[])
  }

  lemma FreshOk(c: Config, now: nat)
    requires ConfigOk(c)
    ensures Inv(FreshState(now), c, None) && Armed(FreshState(now), [], None, []) && NoneLost(FreshState(now))
  {
    hide WheelsOk, SlotsOk, QueueOk, TimersOk, FiredOk, CancelledOk, Interval;
    FreshInterval(c);
    FreshWheelOk(FreshState(now).wheels, Interval(c), now);
    FreshRest(c, now);
    assert SpacedOk([], [], None);
  }

  lemma FreshInterval(c: Config)
    requires ConfigOk(c)
    ensures Interval(c) > 0
  {
    MulMonotone(c.tick, 1, c.wheelSize);
  }

  lemma FreshRest(c: Config, now: nat)
    requires ConfigOk(c)
    ensures
      var s := FreshState(now);
      && SlotsOk(s.wheels, s.buckets, s.owners, c) && QueueOk(s.items, s.buckets, c.tick)
      && TimersOk(s.buckets, s.timers, s.elements, c.tick) && FiredOk(s.fired, s.timers, c.tick, None)
      && CancelledOk(s.cancelled, s.timers, s.fired)
  {
    hide TimeToPrecision, ItemOf, TimerOk, EntryOk;
  }

  /** The first cancellation of `t` counts. */
  function Recorded(cancelled: map<nat, nat>, t: nat, n: nat): map<nat, nat> {
    if t in cancelled then cancelled else cancelled[t := n]
  }

  /** What cancelling `t` does. */
  function CancelTimerOf(s: State, t: nat): State
    requires t < |s.timers|
    requires s.timers[t].bucket.Some? ==> s.timers[t].bucket.value < |s.buckets|
  {
    var s' := StopTimer(s, t);
    s'.(cancelled := Recorded(s.cancelled, t, |s.fired|))
  }

  lemma CancelOk(s: State, t: nat, c: Config, running: Option<nat>)
    requires Inv(s, c, running) && t < |s.timers|
    ensures s.timers[t].bucket.Some? ==> s.timers[t].bucket.value < |s.buckets|
    ensures Inv(CancelTimerOf(s, t), c, running) && Quiet(s, CancelTimerOf(s, t), None)
    ensures Respects(s, CancelTimerOf(s, t))
  {
    hide WheelsOk, SlotsOk, QueueOk, TimersOk, FiredOk, SpacedOk, Interval, StopTimer, Lists;
    StopTimerOk(s, t, c, running);
    CancelListings(s, t);
    hide Listings;
  }

  lemma CancelParts(s: State, t: nat, s': State)
    requires t < |s.timers| && (s.timers[t].bucket.Some? ==> s.timers[t].bucket.value < |s.buckets|)
    requires s' == CancelTimerOf(s, t) && Quiet(s, s', None)
    ensures s'.timers == s.timers[t := s.timers[t].(bucket := None)] && s'.fired == s.fired
    ensures s'.cancelled == Recorded(s.cancelled, t, |s.fired|)
    ensures NoneLost(s) ==> NoneLost(s')
  {
    hide Quiet, Without;
    if NoneLost(s) {
      NoneLostStays(s, s');
    }
  }

  lemma CancelListings(s: State, t: nat)
    requires t < |s.timers| && (s.timers[t].bucket.Some? ==> s.timers[t].bucket.value < |s.buckets|)
    requires Stopped(s, StopTimer(s, t), t)
    ensures Listings(s, CancelTimerOf(s, t), None)
  {
    hide StopTimer;
    var s1, s' := StopTimer(s, t), CancelTimerOf(s, t);
    forall b: nat, u: nat
      ensures Lists(s', b, u) <==> Lists(s1, b, u)
    {
    }
    hide Lists;
  }

  /** History: idle timers that exist never run again, and stay idle; a timer that changed was
      cancelled or has run. */
  ghost predicate Respects(s: State, s': State) {
    && |s.timers| <= |s'.timers| && s.fired <= s'.fired && Extends(s.cancelled, s'.cancelled)
    && (forall t :: 0 <= t < |s.timers| ==> s'.timers[t].repeatNs == s.timers[t].repeatNs)
    && (forall t :: 0 <= t < |s.timers| && s.timers[t].bucket == None ==> s'.timers[t].bucket == None)
    && (forall i :: |s.fired| <= i < |s'.fired| && s'.fired[i].timer < |s.timers| ==>
          s.timers[s'.fired[i].timer].bucket != None)
    && (forall t :: 0 <= t < |s.timers| ==>
          s'.timers[t] == s.timers[t] || t in s'.cancelled || RanSince(|s.fired|, s'.fired, t))
  }

  lemma RespectsTrans(s: State, s': State, s'': State)
    requires Respects(s, s') && Respects(s', s'')
    ensures Respects(s, s'')
  {
    forall t | 0 <= t < |s.timers|
      ensures s''.timers[t] == s.timers[t] || t in s''.cancelled || RanSince(|s.fired|, s''.fired, t)
    {
      if RanSince(|s.fired|, s'.fired, t) {
        var i :| |s.fired| <= i < |s'.fired| && s'.fired[i].timer == t;
        assert s''.fired[i] == s'.fired[i];
      }
    }
  }

  lemma QuietRespects(s: State, s': State)
    requires Quiet(s, s', None) && s'.fired == s.fired
    ensures Respects(s, s')
  {
  }

  /** A new timer, placed. */
  lemma AddedQuiet(s: State, s1: State, s2: State, t: nat)
    requires t == |s.timers| && Quiet(s, s1, None) && s1.timers[..t] == s.timers && |s1.timers| == t + 1
    requires s1.fired == s.fired && Elsewhere(s1, s2, t) && NoneOrQueued(s2, t)
    ensures Quiet(s, s2, None) && Respects(s, s2) && s2.timers[..t] == s.timers
  {
    forall u | 0 <= u < t
      ensures s2.timers[u] == s.timers[u]
    {
      assert s1.timers[..t][u] == s1.timers[u];
    }
  }

  lemma InvInterval(s: State, c: Config, running: Option<nat>)
    requires Inv(s, c, running)
    ensures Interval(c) > 0
  {
  }

  lemma FirstWheel(s: State, c: Config, running: Option<nat>)
    requires Inv(s, c, running)
    ensures |s.chain| > 0 && s.chain[0] == 0 && |s.wheels| > 0
  {
  }

  lemma QuietSelf(s: State)
    ensures Quiet(s, s, None)
  {
  }

  lemma IdleQuiet(s: State, t: nat)
    requires t < |s.timers| && s.timers[t].bucket == None
    ensures Quiet(s, s, Some(t)) && Respects(s, s)
  {
  }

  lemma StillThere(s: State, s': State, t: nat)
    requires Quiet(s, s', None) && t < |s.timers|
    ensures t < |s'.timers| && s'.timers[t].repeatNs == s.timers[t].repeatNs && |s.timers| <= |s'.timers|
    ensures s'.timers[t] == s.timers[t] || (s'.timers[t].bucket == None && t in s'.cancelled)
    ensures s'.handler == s.handler && |s.wheels| <= |s'.wheels|
    ensures s.handler < |s.wheels| ==> s'.wheels[s.handler].start == s.wheels[s.handler].start
  {
  }

  lemma ElsewhereParts(s: State, s': State, t: nat)
    requires Elsewhere(s, s', t)
    ensures t < |s'.timers| == |s.timers| && s'.fired == s.fired && s'.timers[t].repeatNs == s.timers[t].repeatNs
    ensures s'.cancelled == s.cancelled
  {
  }

  /** No timer is lost as long as the new ones are armed. */
  lemma NoneLostStays(s: State, s': State)
    requires NoneLost(s) && Quiet(s, s', None)
    requires forall t :: |s.timers| <= t < |s'.timers| ==> s'.timers[t].bucket.Some?
    ensures NoneLost(s')
  {
    hide Listings, NoneOrQueued;
    forall t | 0 <= t < |s.timers| && RanSince(0, s.fired, t)
      ensures RanSince(0, s'.fired, t)
    {
      RanStays(0, s.fired, s'.fired, t);
    }
  }

  lemma RanStays(n: nat, fired: seq<Firing>, fired': seq<Firing>, t: nat)
    requires RanSince(n, fired, t) && fired <= fired'
    ensures RanSince(n, fired', t)
  {
    var i :| n <= i < |fired| && fired[i].timer == t;
    assert fired'[i] == fired[i];
  }

  /** Ready to re-arm: the current wheel is on the chain, and an armed timer is not cancelled. */
  lemma HandlerOnChain(s: State, t: nat, c: Config, running: Option<nat>)
    requires Inv(s, c, running) && t < |s.timers| && Repeats(s.timers[t]) && s.timers[t].bucket.Some?
    ensures s.handler < |s.wheels| && s.handler in s.chain && MayArm(s, t)
  {
    hide SlotsOk, QueueOk, TimersOk, FiredOk, SpacedOk, Interval;
  }

  /** A repeat duration after the present time is one after all times before. */
  lemma NextSpaced(s: State, t: nat, c: Config)
    requires Inv(s, c, Some(t)) && t < |s.timers| && Repeats(s.timers[t]) && s.timers[t].bucket.Some?
    ensures Spaced(s, t, s.timers[t].expiration + Period(s.timers[t]))
  {
    hide WheelsOk, SlotsOk, QueueOk, TimersOk, CancelledOk, FiredOk, Interval;
  }

  lemma StillSpaced(s: State, s': State, t: nat)
    requires Elsewhere(s, s', t) && Spaced(s, t, s.timers[t].expiration + Period(s.timers[t]))
    requires s'.timers[t].expiration >= s.timers[t].expiration + Period(s.timers[t])
    ensures Spaced(s', t, s'.timers[t].expiration)
  {
    hide Listings, Kept;
  }

  lemma EndRun(s: State, t: nat, c: Config)
    requires Inv(s, c, Some(t)) && t < |s.timers| && Repeats(s.timers[t]) && Spaced(s, t, s.timers[t].expiration)
    ensures Inv(s, c, None)
  {
    hide WheelsOk, SlotsOk, QueueOk, TimersOk, CancelledOk, Interval;
  }

  lemma StopElsewhere(s: State, t: nat)
    requires t < |s.timers| && (Repeats(s.timers[t]) ==> s.timers[t].bucket.None?)
    requires s.timers[t].bucket.Some? ==> s.timers[t].bucket.value < |s.buckets|
    ensures Elsewhere(s, StopTimer(s, t), t) && StopTimer(s, t).timers[t].bucket == None
  {
    StopTimerEntries(s, t);
    hide Lists, Without;
  }

  /** The whole of a callback and its aftermath. */
  lemma FiredQuiet(s: State, s2: State, s3: State, t: nat)
    requires t < |s.timers| && s.timers[t].bucket.Some?
    requires Quiet(s, s2, None) && Elsewhere(s2, s3, t) && NoneOrQueued(s3, t)
    requires |s2.fired| == |s.fired| + 1 && s2.fired[|s.fired|].timer == t
    ensures Quiet(s, s3, Some(t)) && Respects(s, s3)
  {
    forall u | |s.timers| <= u < |s3.timers|
      ensures NoneOrQueued(s3, u)
    {
      assert NoneOrQueued(s2, u);
      NoneOrQueuedStays(s2, s3, u);
    }
  }

  // ---------------------------------------------------------------- what a tick promises

  /** The buckets are ones whose rounded time has come. */
  ghost predicate Soon(s: State, later: seq<nat>, now: int, tick: int) {
    forall i :: 0 <= i < |later| ==> Up(s, later[i], now, tick)
  }

  /** The same but for queue membership. */
  ghost predicate OnlyFlags(s: State, s': State) {
    && s'.wheels == s.wheels && s'.chain == s.chain && s'.handler == s.handler && s'.timers == s.timers
    && s'.fired == s.fired && s'.cancelled == s.cancelled
    && |s'.buckets| == |s.buckets|
    && forall b :: 0 <= b < |s.buckets| ==>
         s'.buckets[b].expiration == s.buckets[b].expiration && s'.buckets[b].entries == s.buckets[b].entries
  }

  lemma OnlyFlagsTrans(s: State, s': State, s'': State)
    requires OnlyFlags(s, s') && OnlyFlags(s', s'')
    ensures OnlyFlags(s, s'')
  {
  }

  /** The queue's buckets have not come up. */
  ghost predicate NoneDue(s: State, now: int, tick: int) {
    forall b :: 0 <= b < |s.buckets| && s.buckets[b].inQueue ==> !Up(s, b, now, tick)
  }

  /** Whatever has left the queue is among the popped buckets. */
  ghost predicate Gone(s: State, s': State, expired: seq<nat>) {
    forall b :: 0 <= b < |s.buckets| && s.buckets[b].inQueue ==> b < |s'.buckets| && (s'.buckets[b].inQueue || b in expired)
  }

  lemma NoBucketsYet(s: State, now: int, c: Config)
    ensures Soon(s, [], now, c.tick) && OnlyFlags(s, s)
  {
  }

  lemma QueueDrained(s: State, now: int, c: Config)
    requires Inv(s, c, None) && forall x :: x in s.items ==> x.priority > now
    ensures NoneDue(s, now, c.tick)
  {
    hide WheelsOk, SlotsOk, TimersOk, FiredOk, SpacedOk, CancelledOk, Interval, TimeToPrecision;
    forall b: nat | b < |s.buckets| && s.buckets[b].inQueue
      ensures !Up(s, b, now, c.tick)
    {
      assert s.items[ItemOf(s.buckets, b, c.tick)] == 1;
    }
  }

  lemma GoneNext(s0: State, s: State, b: nat, expired: seq<nat>, tick: int)
    requires Gone(s0, s, expired) && b < |s.buckets| && tick > 0
    ensures Gone(s0, DequeueBucket(s, b, tick), expired + [b])
  {
  }

  lemma DequeueIs(s: State, b: nat, tick: int, rest: multiset<Item>)
    requires b < |s.buckets| && tick > 0 && s.items == rest + multiset{ItemOf(s.buckets, b, tick)}
    ensures s.(buckets := s.buckets[b := s.buckets[b].(inQueue := false)], items := rest) == DequeueBucket(s, b, tick)
  {
  }

  /** The popped item is the one of a bucket that was queued and whose time has come. */
  lemma Popped(s: State, x: Item, now: int, expired: seq<nat>, c: Config)
    requires Inv(s, c, None) && x in s.items && x.priority <= now
    requires Armed(s, expired, None, []) && Soon(s, expired, now, c.tick)
    ensures x.bucket < |s.buckets| && s.buckets[x.bucket].inQueue && c.tick > 0
    ensures x == ItemOf(s.buckets, x.bucket, c.tick)
    ensures
      var s' := DequeueBucket(s, x.bucket, c.tick);
      && Inv(s', c, None) && OnlyFlags(s, s')
      && Armed(s', expired + [x.bucket], None, []) && Soon(s', expired + [x.bucket], now, c.tick)
  {
    hide WheelsOk, SlotsOk, TimersOk, FiredOk, SpacedOk, CancelledOk, Interval, TimeToPrecision;
    var b := x.bucket;
    assert x == ItemOf(s.buckets, b, c.tick);
    assert s.items[x] >= 1;
    DequeueOk(s, b, c, None);
    var s' := DequeueBucket(s, b, c.tick);
    forall t | 0 <= t < |s'.timers| && s'.timers[t].bucket.Some?
      ensures ArmedOne(s', expired + [b], None, [], t)
    {
      assert ArmedOne(s, expired, None, [], t);
    }
  }

  lemma SwitchOk(s: State, v: nat, c: Config)
    requires Inv(s, c, None) && v < |s.wheels| && Armed(s, [], None, [])
    ensures Inv(s.(handler := v), c, None) && Armed(s.(handler := v), [], None, [])
  {
    hide WheelsOk, SlotsOk, QueueOk, TimersOk, FiredOk, SpacedOk, CancelledOk, Interval;
    forall t | 0 <= t < |s.timers| && s.timers[t].bucket.Some?
      ensures ArmedOne(s.(handler := v), [], None, [], t)
    {
      assert ArmedOne(s, [], None, [], t);
    }
  }

  // ---------------------------------------------------------------- adding within one wheel

  /** The wheel with a bucket for the time `e`. */
  function WithBucket(s: State, w: nat, e: int, tick: int): State
    requires w < |s.wheels| && tick > 0
  {
    var k := (e - s.wheels[w].start) / tick;
    if k in s.wheels[w].slots then s else NewBucket(s, w, k, tick)
  }

  /** The wheel has bucket `b` for the time `e`. */
  ghost predicate BucketMade(s: State, s': State, w: nat, e: int, b: nat, tick: int) {
    && w < |s.wheels| && tick > 0 && s' == WithBucket(s, w, e, tick)
    && w < |s'.wheels| && (e - s.wheels[w].start) / tick in s'.wheels[w].slots
    && b == s'.wheels[w].slots[(e - s.wheels[w].start) / tick]
  }

  function Queued(s: State, b: nat, tick: int): State
    requires b < |s.buckets| && tick > 0
  {
    if s.buckets[b].inQueue then s else EnqueueBucket(s, b, tick)
  }

  /** Adding `t`, due at `e`, to wheel `w`. A slot always names a bucket that exists (see
      `SlotsOk`), so the last branch is never taken. */
  function PlaceIn(s: State, w: nat, t: nat, e: int, tick: int): State
    requires w < |s.wheels| && t < |s.timers| && tick > 0
  {
    var s1 := WithBucket(s, w, e, tick);
    var b := s1.wheels[w].slots[(e - s.wheels[w].start) / tick];
    if b < |s1.buckets| then Queued(PutTimer(s1, b, t, e), b, tick) else s1
  }

  function HandlerStart(s: State): int {
    if s.handler < |s.wheels| then s.wheels[s.handler].start else 0
  }

  /** When a repeating timer is due again. */
  function NextTime(s: State, t: nat): int
    requires t < |s.timers|
  {
    Max(s.timers[t].expiration + Period(s.timers[t]), HandlerStart(s))
  }

  /** A repeating timer that is armed is armed one period later, any other is idle. */
  ghost predicate Rearmed(s: State, s': State, t: nat) {
    && Elsewhere(s, s', t) && NoneOrQueued(s', t) && s'.fired == s.fired && s'.cancelled == s.cancelled
    && (!Repeats(s.timers[t]) || s.timers[t].bucket.None? ==> s'.timers[t] == s.timers[t].(bucket := None))
    && (Repeats(s.timers[t]) && s.timers[t].bucket.Some? ==> PlacedAt(s', t, NextTime(s, t)))
  }

  /** A new one-shot timer, due at `e`. */
  ghost predicate AddedOnce(s: State, s': State, e: int) {
    && Quiet(s, s', None) && s'.fired == s.fired && s'.cancelled == s.cancelled
    && |s'.timers| == |s.timers| + 1 && s'.timers[..|s.timers|] == s.timers && s'.timers[|s.timers|].repeatNs == 0
    && PlacedAt(s', |s.timers|, e)
  }

  lemma AddedParts(s: State, s': State, e: int)
    requires AddedOnce(s, s', e)
    ensures |s'.timers| == |s.timers| + 1
    ensures var x := s'.timers[|s.timers|]; x.bucket.Some? && x.repeatNs == 0 && x.expiration == e
  {
  }

  /** Timer `id` is idle; the others are as they were. */
  ghost predicate Idled(s: State, s': State, id: nat) {
    && 0 < id <= |s.timers| && Quiet(s, s', None) && s'.fired == s.fired
    && s'.timers == s.timers[id - 1 := s.timers[id - 1].(bucket := None)]
    && (forall u :: u in s'.cancelled && u !in s.cancelled ==> u == id - 1)
  }

  lemma CancelledIdle(s: State, t: nat, c: Config, running: Option<nat>)
    requires Inv(s, c, running) && t in s.cancelled
    ensures t < |s.timers| && s.timers[t := s.timers[t].(bucket := None)] == s.timers
  {
    hide WheelsOk, SlotsOk, QueueOk, TimersOk, FiredOk, SpacedOk, Interval;
  }

  class TimerManager {
    const config: Config
    const queue: PriorityQueue
    var wheels: seq<Wheel>
    var handler: nat
    var buckets: seq<Bucket>
    var timers: seq<Timer>
    var elements: nat
    var timerMap: map<nat, nat>
    var fired: seq<Firing>
    ghost var chain: seq<nat>
    ghost var owners: seq<Owner>
    ghost var cancelled: map<nat, nat>

    ghost function S(): State
      reads this, queue
    {
      State(wheels, chain, handler, buckets, owners, multiset(queue.pq), timers, elements, fired, cancelled)
    }

    /** `running` is the timer whose callback is being run. */
    ghost predicate Valid(running: Option<nat>)
      reads this, queue
    {
      && queue.Valid()
      && Inv(S(), config, running)
      && forall id :: id in timerMap ==> id > 0 && timerMap[id] == id - 1 < |timers|
    }

    /** One empty wheel that starts now. */
    constructor (c: Config, now: nat)
      requires ConfigOk(c)
      ensures Ready() && fresh(queue) && config == c
      ensures S() == FreshState(now) && timerMap == map[]
    {
      config := c;
      queue := new PriorityQueue();
      wheels, handler, chain := [Wheel(now, map[], None)], 0, [0];
      buckets, owners := [], [];
      timers, elements, timerMap, fired, cancelled := [], 0, map[], [], map[];
      new;
      hide Ready, IsHeap;
      FreshReady(this, now);
    }

    /** A timer is registered under its id until it is cancelled, and none is lost. */
    ghost predicate MapOk()
      reads this, queue
    {
      && (forall t :: 0 <= t < |timers| ==> (t + 1 in timerMap <==> t !in cancelled))
      && NoneLost(S())
    }

    /** Idle between operations: every armed timer's bucket is queued. */
    ghost predicate Ready()
      reads this, queue
    {
      Valid(None) && MapOk() && Armed(S(), [], None, [])
    }

    method AddBucket(w: nat, k: int)
      requires w < |wheels|
      modifies this
      ensures S() == NewBucket(old(S()), w, k, config.tick) && timerMap == old(timerMap)
    {
      wheels := wheels[w := wheels[w].(slots := wheels[w].slots[k := |buckets|])];
      buckets := buckets + [Bucket(wheels[w].start + k * config.tick, [], false)];
      owners := owners + [Owner(w, k)];
    }

    method PutEntry(b: nat, t: nat, e: int)
      requires b < |buckets| && t < |timers|
      modifies this
      ensures S() == PutTimer(old(S()), b, t, e) && timerMap == old(timerMap)
    {
      buckets := buckets[b := buckets[b].(entries := buckets[b].entries + [Entry(t, elements)])];
      timers := timers[t := timers[t].(expiration := e, bucket := Some(b), element := elements)];
      elements := elements + 1;
    }

    method Enqueue(b: nat)
      requires b < |buckets| && ConfigOk(config) && queue.Valid()
      modifies this, queue
      ensures queue.Valid()
      ensures S() == EnqueueBucket(old(S()), b, config.tick) && timerMap == old(timerMap)
    {
      buckets := buckets[b := buckets[b].(inQueue := true)];
      queue.Push(Item(b, TimeToPrecision(buckets[b].expiration, config.tick)));
    }

    method InsertAfter(w: nat, ghost pos: nat, start: int)
      requires w < |wheels| && pos < |chain| && chain[pos] == w
      modifies this
      ensures S() == InsertWheel(old(S()), pos, start) && timerMap == old(timerMap)
    {
      var wheel := Wheel(start, map[], wheels[w].overflow);
      wheels := wheels[w := wheels[w].(overflow := Some(|wheels|))] + [wheel];
      chain := chain[..pos + 1] + [|wheels| - 1] + chain[pos + 1..];
    }

    /** Makes sure the wheel behind `w` exists and is not past `e`. */
    method EnsureOverflow(w: nat, ghost pos: nat, ghost t: nat, e: int, ghost running: Option<nat>)
      requires Valid(running) && pos < |chain| && chain[pos] == w && t < |timers|
      requires wheels[w].start + Interval(config) <= e
      modifies this
      ensures Valid(running) && Elsewhere(old(S()), S(), t) && timers == old(timers) && timerMap == old(timerMap)
      ensures pos + 1 < |chain| && wheels[w].overflow == Some(chain[pos + 1])
      ensures pos + 1 < |chain| && chain[pos + 1] < |wheels| && wheels[w].start + Interval(config) <= wheels[chain[pos + 1]].start <= e
    {
      ghost var s := S();
      NextWheel(s, pos, config, running);
      if wheels[w].overflow.None? || e < wheels[wheels[w].overflow.value].start {
        NewWheelFits(s, pos, t, e, config, running);
        hide Inv, InsertWheel, Elsewhere;
        InsertAfter(w, pos, Truncate(wheels[w].start, e, Interval(config)));
        assert Valid(running);
      }
    }

    /** The bucket of wheel `w` for the time `e`, made if need be. */
    method BucketFor(w: nat, e: int, ghost t: nat, ghost running: Option<nat>) returns (b: nat)
      requires Valid(running) && w < |wheels| && t < |timers|
      requires wheels[w].start <= e < wheels[w].start + Interval(config)
      modifies this
      ensures Valid(running) && Elsewhere(old(S()), S(), t) && timers == old(timers)
      ensures timerMap == old(timerMap) && chain == old(chain)
      ensures b < |buckets| && buckets[b].expiration <= e < buckets[b].expiration + config.tick
      ensures BucketMade(old(S()), S(), w, e, b, config.tick)
    {
      hide Inv, Elsewhere;
      InvConfig(S(), config, running);
      ElsewhereSelf(S(), t);
      var k := (e - wheels[w].start) / config.tick;
      SlotHolds(wheels[w].start, e, config);
      if k !in wheels[w].slots {
        NewBucketOk(S(), w, k, config, running);
        QuietElsewhere(S(), NewBucket(S(), w, k, config.tick), t);
        AddBucket(w, k);
      }
      b := wheels[w].slots[k];
      SlotBucket(S(), w, k, config, running);
    }

    method EnsureQueued(b: nat, ghost t: nat, ghost running: Option<nat>)
      requires Valid(running) && b < |buckets| && t < |timers|
      modifies this, queue
      ensures Valid(running) && Elsewhere(old(S()), S(), t) && timers == old(timers)
      ensures timerMap == old(timerMap) && chain == old(chain)
      ensures b < |buckets| && buckets[b].inQueue
      ensures config.tick > 0 && S() == Queued(old(S()), b, config.tick)
    {
      hide Inv;
      InvConfig(S(), config, running);
      if !buckets[b].inQueue {
        EnqueueOk(S(), b, config, running);
        EnqueueElsewhere(S(), b, t, config.tick);
        Enqueue(b);
      }
    }

    /** Puts `t` into the bucket of wheel `w` for the time `e`. */
    method PlaceHere(w: nat, t: nat, e: int, ghost running: Option<nat>)
      requires Valid(running) && w < |wheels| && t < |timers| && MayArm(S(), t) && Spaced(S(), t, e)
      requires wheels[w].start <= e < wheels[w].start + Interval(config)
      modifies this, queue
      ensures Valid(running) && Elsewhere(old(S()), S(), t) && PlacedAt(S(), t, e)
      ensures timerMap == old(timerMap) && chain == old(chain)
      ensures config.tick > 0 && S() == PlaceIn(old(S()), w, t, e, config.tick)
    {
      hide Inv, WithBucket;
      var b := BucketFor(w, e, t, running);
      ghost var s := S();
      PutTimerOk(s, b, t, e, config, running);
      PutElsewhere(s, b, t, e);
      PutEntry(b, t, e);
      ElsewhereTrans(old(S()), s, S(), t);
      s := S();
      EnsureQueued(b, t, running);
      ElsewhereTrans(old(S()), s, S(), t);
    }

    /** Puts `t`, due at `e`, on the chain from wheel `w` on; a time before the wheel starts
        counts as the start. */
    method Place(w: nat, ghost pos: nat, t: nat, e0: int, ghost running: Option<nat>)
      requires Valid(running) && pos < |chain| && chain[pos] == w < |wheels| && t < |timers| && MayArm(S(), t)
      requires Spaced(S(), t, e0)
      modifies this, queue
      ensures Valid(running) && Elsewhere(old(S()), S(), t) && timerMap == old(timerMap)
      ensures PlacedAt(S(), t, Max(e0, old(wheels[w].start)))
      ensures Max(e0, old(wheels[w].start)) < old(wheels[w].start) + Interval(config) ==>
                config.tick > 0 && S() == PlaceIn(old(S()), w, t, Max(e0, old(wheels[w].start)), config.tick)
      decreases e0 - wheels[w].start
    {
      hide Inv, PlacedAt, PlaceIn;
      var e := e0;
      if e < wheels[w].start {
        e := wheels[w].start;
      }
      InvInterval(S(), config, running);
      if e < wheels[w].start + Interval(config) {
        PlaceHere(w, t, e, running);
      } else {
        ghost var s := S();
        EnsureOverflow(w, pos, t, e, running);
        ghost var s1 := S();
        Place(wheels[w].overflow.value, pos + 1, t, e, running);
        ElsewhereTrans(s, s1, S(), t);
      }
    }

    /** Takes `t` out of its bucket. */
    method Stop(t: nat)
      requires t < |timers|
      requires timers[t].bucket.Some? ==> timers[t].bucket.value < |buckets|
      modifies this
      ensures S() == StopTimer(old(S()), t) && timerMap == old(timerMap)
    {
      while timers[t].bucket.Some?
        invariant t < |timers| && timerMap == old(timerMap)
        invariant timers[t].bucket.Some? ==> S() == old(S())
        invariant timers[t].bucket.None? ==> S() == StopTimer(old(S()), t)
        decreases timers[t].bucket.Some?
      {
        var b := timers[t].bucket.value;
        buckets := buckets[b := buckets[b].(entries := Without(buckets[b].entries, Entry(t, timers[t].element)))];
        timers := timers[t := timers[t].(bucket := None)];
      }
    }

    method AddTimer(clock: int, duration: int, repeatNs: int, ghost running: Option<nat>) returns (id: nat)
      requires Valid(running)
      modifies this, queue
      ensures Valid(running) && Quiet(old(S()), S(), None) && Respects(old(S()), S())
      ensures |timers| == |old(timers)| + 1 == id && fired == old(fired) && cancelled == old(cancelled)
      ensures PlacedAt(S(), id - 1, Max(clock + duration, old(FirstStart())))
      ensures |old(wheels)| > 0
      ensures timers[id - 1].expiration == if clock + duration < old(wheels)[0].start then old(wheels)[0].start else clock + duration
      ensures timers[id - 1].repeatNs == (if repeatNs > 0 then repeatNs else 0) && timers[..id - 1] == old(timers)
      ensures timerMap == old(timerMap)[id := id - 1] && id - 1 !in cancelled
      ensures
        var e := Max(clock + duration, old(FirstStart()));
        e < old(FirstStart()) + Interval(config) ==>
          |old(wheels)| > 0 && config.tick > 0
          && S() == PlaceIn(NewTimer(old(S()), clock + duration, Max(repeatNs, 0)), 0, id - 1, e, config.tick)
    {
      hide Inv, Quiet, Respects, Elsewhere, PlaceIn;
      ghost var s := S();
      FirstWheel(S(), config, running);
      var e, repeat := clock + duration, if repeatNs > 0 then repeatNs else 0;
      var t := |timers|;
      NewTimerOk(s, e, repeat, config, running);
      timers := timers + [Timer(e, repeat, None, 0)];
      ghost var s1 := S();
      Place(0, 0, t, e, running);
      ElsewhereParts(s1, S(), t);
      AddedQuiet(s, s1, S(), t);
      timerMap := timerMap[t + 1 := t];
      return t + 1;
    }

    ghost function FirstStart(): int
      reads this
    {
      if |wheels| > 0 then wheels[0].start else 0
    }

    method Cancel(id: nat, ghost running: Option<nat>)
      requires Valid(running)
      modifies this
      ensures Valid(running) && Quiet(old(S()), S(), None) && Respects(old(S()), S())
      ensures |timers| == |old(timers)| && fired == old(fired)
      ensures timerMap == old(timerMap) - {id}
      ensures cancelled == if id in old(timerMap) then Recorded(old(cancelled), id - 1, |old(fired)|) else old(cancelled)
      ensures !(0 < id <= |timers|) ==> S() == old(S())
      ensures old(MapOk()) ==> MapOk()
      ensures id in old(timerMap) ==> timers == old(timers)[id - 1 := old(timers)[id - 1].(bucket := None)]
      ensures id !in old(timerMap) ==> S() == old(S())
    {
      hide Inv, Quiet, Respects, NoneLost, Without;
      ghost var s := S();
      if id in timerMap {
        var t := timerMap[id];
        CancelOk(S(), t, config, running);
        Stop(t);
        timerMap := timerMap - {id};
        cancelled := Recorded(cancelled, t, |fired|);
        CancelParts(s, t, S());
      } else {
        QuietSelf(s);
        QuietRespects(s, s);
      }
    }

    /** The same for a timer that exists; it ends up idle whether it was registered or not. */
    method CancelTimer(id: nat, ghost running: Option<nat>)
      requires Valid(running) && MapOk() && 0 < id <= |timers|
      modifies this
      ensures Valid(running) && MapOk() && Idled(old(S()), S(), id)
    {
      hide Inv, Quiet, Respects;
      var t := id - 1;
      if t + 1 !in timerMap {
        assert t in cancelled;
        CancelledIdle(S(), t, config, running);
      }
      Cancel(t + 1, running);
      assert MapOk();
    }

    /** A one-shot timer. */
    method After(clock: int, duration: int, ghost running: Option<nat>) returns (id: nat)
      requires Valid(running) && MapOk()
      modifies this, queue
      ensures Valid(running) && MapOk() && id == |timers|
      ensures AddedOnce(old(S()), S(), Max(clock + duration, old(FirstStart())))
    {
      hide Inv, Quiet, Respects, PlaceIn, PlacedAt;
      ghost var s := S();
      id := AddTimer(clock, duration, 0, running);
      PlacedParts(S(), id - 1, Max(clock + duration, old(FirstStart())));
      NoneLostStays(s, S());
      assert MapOk();
    }

    /** After its callback: a repeating timer that was not cancelled goes back on the wheels, any
        other is stopped. */
    method RearmOrStop(t: nat)
      requires t < |timers| && Valid(Some(t)) && RanSince(0, fired, t)
      modifies this, queue
      ensures Valid(None) && Rearmed(old(S()), S(), t) && (old(MapOk()) ==> MapOk())
      ensures old(timers[t].repeatNs > 0 && timers[t].bucket.Some?) ==>
                && old(handler) < |old(wheels)|
                && var due, start := old(timers[t].expiration) + old(timers[t].repeatNs) / 1_000_000, old(wheels)[old(handler)].start;
                   timers[t].expiration == if due < start then start else due
      ensures
        old(Repeats(timers[t]) && timers[t].bucket.Some?) && NextTime(old(S()), t) < HandlerStart(old(S())) + Interval(config) ==>
          old(handler) < |old(wheels)| && config.tick > 0
          && S() == PlaceIn(old(S()), old(handler), t, NextTime(old(S()), t), config.tick)
    {
      hide Inv, PlaceIn;
      ghost var s := S();
      if timers[t].repeatNs > 0 && timers[t].bucket.Some? {
        HandlerOnChain(s, t, config, Some(t));
        NextSpaced(s, t, config);
        ghost var pos :| 0 <= pos < |chain| && chain[pos] == handler;
        Place(handler, pos, t, timers[t].expiration + Period(timers[t]), Some(t));
        StillSpaced(s, S(), t);
        EndRun(S(), t, config);
      } else {
        StopTimerOk(s, t, config, Some(t));
        StopElsewhere(s, t);
        Stop(t);
      }
    }

    /** The callback of an armed timer that bucket `listed` listed starts to run. */
    method Run(t: nat, now: int, listed: nat)
      requires Valid(None) && t < |timers| && timers[t].bucket.Some?
      requires Lists(S(), listed, t) && Up(S(), listed, now, config.tick)
      modifies this
      ensures Valid(Some(t)) && S() == RunCallback(old(S()), t, now, listed) && (old(MapOk()) ==> MapOk())
      ensures Quiet(old(S()), S(), None)
    {
      RunCallbackOk(S(), t, now, listed, config);
      hide Inv;
      fired := fired + [Firing(t, now, timers[t].expiration, listed, timers[t].bucket.value)];
    }

    /** The first bucket of the queue if its time has come. */
    method PeekAndShift(now: int, ghost expired: seq<nat>) returns (b: Option<nat>)
      requires Valid(None) && Armed(S(), expired, None, []) && Soon(S(), expired, now, config.tick)
      modifies this, queue
      ensures Valid(None) && OnlyFlags(old(S()), S()) && timerMap == old(timerMap) && (old(MapOk()) ==> MapOk())
      ensures b.None? ==> S() == old(S()) && NoneDue(S(), now, config.tick)
      ensures b.Some? ==>
                && |queue.pq| < |old(queue.pq)|
                && b.value < |old(buckets)| && config.tick > 0 && S() == DequeueBucket(old(S()), b.value, config.tick)
                && Armed(S(), expired + [b.value], None, []) && Soon(S(), expired + [b.value], now, config.tick)
    {
      hide Inv, Armed, Soon, OnlyFlags, NoneDue, ItemOf, IsHeap, DequeueBucket;
      ghost var s := S();
      var item := queue.PeekAndShift(now);
      if item.None? {
        QueueDrained(s, now, config);
        NoBucketsYet(s, now, config);
        return None;
      }
      Popped(s, item.value, now, expired, config);
      var i := item.value.bucket;
      DequeueIs(s, i, config.tick, multiset(queue.pq));
      buckets := buckets[i := buckets[i].(inQueue := false)];
      return Some(i);
    }

    /** The buckets whose time has come, taken out of the queue. */
    method GetExpiredAndShift(now: int) returns (expired: seq<nat>)
      requires Valid(None) && Armed(S(), [], None, [])
      modifies this, queue
      ensures Valid(None) && Armed(S(), expired, None, []) && Soon(S(), expired, now, config.tick)
      ensures OnlyFlags(old(S()), S()) && NoneDue(S(), now, config.tick) && timerMap == old(timerMap)
      ensures Gone(old(S()), S(), expired)
      ensures old(MapOk()) ==> MapOk()
    {
      hide Inv, Armed, Soon, OnlyFlags, NoneDue, NoneLost, DequeueBucket;
      expired := [];
      NoBucketsYet(S(), now, config);
      while true
        invariant Valid(None) && Armed(S(), expired, None, []) && Soon(S(), expired, now, config.tick)
        invariant Gone(old(S()), S(), expired)
        invariant OnlyFlags(old(S()), S()) && timerMap == old(timerMap) && (old(MapOk()) ==> MapOk())
        decreases |queue.pq|
      {
        ghost var s := S();
        var b := PeekAndShift(now, expired);
        if b.None? {
          return;
        }
        GoneNext(old(S()), s, b.value, expired, config.tick);
        expired := expired + [b.value];
        OnlyFlagsTrans(old(S()), s, S());
      }
    }

    /** The wheel that starts at or before now becomes the current one. */
    method SwitchTo(v: nat)
      requires Ready() && v < |wheels|
      modifies this
      ensures Ready() && S() == old(S()).(handler := v)
    {
      SwitchOk(S(), v, config);
      hide Inv, Armed;
      handler := v;
    }
  }

  lemma FreshReady(tm: TimerManager, now: nat)
    requires ConfigOk(tm.config) && tm.queue.Valid() && tm.S() == FreshState(now) && tm.timerMap == map[]
    ensures tm.Ready()
  {
    hide Inv, Armed, NoneLost, IsHeap;
    FreshOk(tm.config, now);
  }

  // ---------------------------------------------------------------- the flat slot map

  /** The start of the slot for `e` if all slots lay on one line from `base`. */
  function FlatSlot(base: int, tick: int, e: int): int
    requires tick > 0
  {
    base + (e - base) / tick * tick
  }

  /** Bucket starts lie on one grid from the first wheel's start. */
  lemma BucketOnGrid(s: State, b: nat, c: Config, running: Option<nat>)
    requires Inv(s, c, running) && b < |s.buckets|
    ensures |s.wheels| > 0 && (s.buckets[b].expiration - s.wheels[0].start) % c.tick == 0
  {
    hide QueueOk, TimersOk, FiredOk, SpacedOk, CancelledOk;
    var o := s.owners[b];
    var d := s.wheels[o.wheel].start - s.wheels[0].start;
    var m := d / Interval(c);
    assert d == m * Interval(c);
    assert m * Interval(c) == c.tick * (m * c.wheelSize);
    DivModUnique(d + o.index * c.tick, c.tick, m * c.wheelSize + o.index, 0);
  }

  /** Two buckets never share a slot. */
  lemma BucketsApart(s: State, a: nat, b: nat, c: Config, running: Option<nat>)
    requires Inv(s, c, running) && a < |s.buckets| && b < |s.buckets| && a != b
    ensures s.buckets[a].expiration != s.buckets[b].expiration
  {
    hide Inv, WheelsOk, SlotsOk;
    BucketInWheel(s, a, c, running);
    BucketInWheel(s, b, c, running);
    var p, q := s.owners[a], s.owners[b];
    if p.wheel == q.wheel {
      MulMonotone(c.tick, Min(p.index, q.index) + 1, Max(p.index, q.index));
    } else {
      WheelsApart(s, p.wheel, q.wheel, c, running);
    }
  }

  /** A bucket starts at its slot, within its wheel's interval. */
  lemma BucketInWheel(s: State, b: nat, c: Config, running: Option<nat>)
    requires Inv(s, c, running) && b < |s.buckets|
    ensures |s.owners| == |s.buckets| && c.tick > 0
    ensures
      var o := s.owners[b];
      && o.wheel < |s.wheels| && o.index in s.wheels[o.wheel].slots && s.wheels[o.wheel].slots[o.index] == b
      && s.buckets[b].expiration == s.wheels[o.wheel].start + c.tick * o.index
      && s.wheels[o.wheel].start <= s.buckets[b].expiration < s.wheels[o.wheel].start + Interval(c)
  {
    hide WheelsOk, QueueOk, TimersOk, FiredOk, SpacedOk, CancelledOk;
    var o := s.owners[b];
    MulMonotone(c.tick, o.index + 1, c.wheelSize);
    MulMonotone(c.tick, 0, o.index);
  }

  /** Wheels do not overlap. */
  lemma WheelsApart(s: State, v: nat, w: nat, c: Config, running: Option<nat>)
    requires Inv(s, c, running) && v < |s.wheels| && w < |s.wheels| && v != w
    ensures s.wheels[v].start + Interval(c) <= s.wheels[w].start || s.wheels[w].start + Interval(c) <= s.wheels[v].start
  {
    hide SlotsOk, QueueOk, TimersOk, FiredOk, SpacedOk, CancelledOk, Interval;
    assert v in s.chain && w in s.chain;
    var i :| 0 <= i < |s.chain| && s.chain[i] == v;
    var j :| 0 <= j < |s.chain| && s.chain[j] == w;
    assert i < j ==> s.wheels[s.chain[i]].start + Interval(c) <= s.wheels[s.chain[j]].start;
    assert j < i ==> s.wheels[s.chain[j]].start + Interval(c) <= s.wheels[s.chain[i]].start;
  }

  /** A time at the start of a bucket falls into no other bucket. */
  lemma BucketOfStart(s: State, a: nat, b: nat, c: Config, running: Option<nat>)
    requires Inv(s, c, running) && a < |s.buckets| && b < |s.buckets|
    requires s.buckets[a].expiration <= s.buckets[b].expiration < s.buckets[a].expiration + c.tick
    ensures a == b
  {
    InvConfig(s, c, running);
    BucketOnGrid(s, a, c, running);
    BucketOnGrid(s, b, c, running);
    hide Inv;
    if s.buckets[a].expiration < s.buckets[b].expiration {
      GridGap(s.wheels[0].start, s.buckets[a].expiration, s.buckets[b].expiration, c.tick);
    }
    if a != b {
      BucketsApart(s, a, b, c, running);
    }
  }

  /** No bucket starts before the first wheel. */
  lemma FirstIsFirst(s: State, b: nat, c: Config, running: Option<nat>)
    requires Inv(s, c, running) && b < |s.buckets|
    ensures |s.wheels| > 0 && s.wheels[0].start <= s.buckets[b].expiration
  {
    BucketInWheel(s, b, c, running);
    hide SlotsOk, QueueOk, TimersOk, FiredOk, SpacedOk, CancelledOk;
    var w := s.owners[b].wheel;
    assert w in s.chain;
    var i :| 0 <= i < |s.chain| && s.chain[i] == w;
    assert i > 0 ==> s.wheels[s.chain[0]].start + Interval(c) <= s.wheels[s.chain[i]].start;
  }

  /** The chain of wheels is one flat map of slots: an armed timer is in the bucket of its flat
      slot, so timers of one slot share the bucket and those of different slots do not. */
  lemma FlatSlots(s: State, t: nat, u: nat, c: Config, running: Option<nat>)
    requires Inv(s, c, running) && t < |s.timers| && u < |s.timers|
    requires s.timers[t].bucket.Some? && s.timers[u].bucket.Some?
    ensures s.timers[t].bucket.value < |s.buckets| && |s.wheels| > 0
    ensures s.buckets[s.timers[t].bucket.value].expiration == FlatSlot(s.wheels[0].start, c.tick, s.timers[t].expiration)
    ensures s.timers[t].bucket == s.timers[u].bucket
            <==> FlatSlot(s.wheels[0].start, c.tick, s.timers[t].expiration) == FlatSlot(s.wheels[0].start, c.tick, s.timers[u].expiration)
  {
    InFlatSlot(s, t, c, running);
    InFlatSlot(s, u, c, running);
    if s.timers[t].bucket != s.timers[u].bucket {
      BucketsApart(s, s.timers[t].bucket.value, s.timers[u].bucket.value, c, running);
    }
  }

  lemma InFlatSlot(s: State, t: nat, c: Config, running: Option<nat>)
    requires Inv(s, c, running) && t < |s.timers| && s.timers[t].bucket.Some?
    ensures s.timers[t].bucket.value < |s.buckets| && |s.wheels| > 0
    ensures s.buckets[s.timers[t].bucket.value].expiration == FlatSlot(s.wheels[0].start, c.tick, s.timers[t].expiration)
  {
    hide WheelsOk, SlotsOk, QueueOk, FiredOk, SpacedOk, CancelledOk;
    assert TimerOk(s.buckets, s.timers, t, c.tick);
    var b := s.timers[t].bucket.value;
    BucketOnGrid(s, b, c, running);
    var base, x, e := s.wheels[0].start, s.buckets[b].expiration, s.timers[t].expiration;
    var q := (x - base) / c.tick;
    assert x - base == c.tick * q;
    DivModUnique(e - base, c.tick, q, e - x);
  }
}
