/** The chain of timer wheels, its buckets and timers. Wheels, buckets and timers are objects of
    the program that point at each other; here each kind lives in a growing sequence and a
    pointer is an index into it. Times are milliseconds. */
module TimerWheel {
  import opened Common
  import opened DelayQueue

  /** `overflow` is the next wheel in time. */
  datatype Wheel = Wheel(start: int, slots: map<int, nat>, overflow: Option<nat>)

  /** A list element of a bucket; `element` tells apart two entries of the same timer. */
  datatype Entry = Entry(timer: nat, element: nat)

  datatype Bucket = Bucket(expiration: int, entries: seq<Entry>, inQueue: bool)

  /** `repeatNs` is the repeat duration in nanoseconds; not positive for a one-shot timer. */
  datatype Timer = Timer(expiration: int, repeatNs: int, bucket: Option<nat>, element: nat)

  /** A callback that ran: whose, at which tick, when it had been due, the bucket that listed the
      timer and the bucket the timer was in. */
  datatype Firing = Firing(timer: nat, now: int, expiration: int, listed: nat, own: nat)

  /** Which wheel and slot a bucket belongs to. */
  datatype Owner = Owner(wheel: nat, index: int)

  predicate Repeats(t: Timer) {
    t.repeatNs > 0
  }

  /** `chain` lists the wheels in overflow order, `owners` the slot of each bucket; `items` is
      the queue's content, `fired` the callbacks run so far; `cancelled` gives for each cancelled timer how
      many callbacks had run by then. */
  datatype State = State(
    wheels: seq<Wheel>, chain: seq<nat>, handler: nat,
    buckets: seq<Bucket>, owners: seq<Owner>, items: multiset<Item>,
    timers: seq<Timer>, elements: nat, fired: seq<Firing>, cancelled: map<nat, nat>)

  datatype Config = Config(tick: int, wheelSize: int)

  ghost predicate ConfigOk(c: Config) {
    c.tick > 0 && c.wheelSize > 0
  }

  function Interval(c: Config): int {
    c.tick * c.wheelSize
  }

  function TimeToPrecision(t: int, precision: int): int
    requires precision > 0
  {
    t / precision * precision
  }

  /** Rounding takes off what is over a whole number of precisions, which is less than one. */
  lemma TimeToPrecisionIs(t: int, precision: int)
    requires precision > 0
    ensures TimeToPrecision(t, precision) == t - t % precision
    ensures t - precision < TimeToPrecision(t, precision) <= t
  {
    assert t == t / precision * precision + t % precision;
  }

  /** The start of the wheel for `expiration`, whole steps after `startMs`. */
  function Truncate(startMs: int, expiration: int, stepMs: int): int
    requires stepMs > 0
  {
    if expiration <= startMs then startMs
    else startMs + (expiration - startMs) / stepMs * stepMs
  }

  // ---------------------------------------------------------------- invariants

  function NextInChain(chain: seq<nat>, i: nat): Option<nat> {
    if i + 1 < |chain| then Some(chain[i + 1]) else None
  }

  /** The overflow pointers run through all wheels; starts are whole intervals apart and rising. */
  ghost predicate WheelsOk(wheels: seq<Wheel>, chain: seq<nat>, interval: int) {
    && interval > 0
    && 0 < |chain| == |wheels| && chain[0] == 0 && wheels[0].start >= 0
    && (forall i :: 0 <= i < |chain| ==> chain[i] < |wheels|)
    && (forall w :: 0 <= w < |wheels| ==> w in chain)
    && (forall i {:trigger NextInChain(chain, i)} :: 0 <= i < |chain| ==> wheels[chain[i]].overflow == NextInChain(chain, i))
    && (forall i, j :: 0 <= i < j < |chain| ==> wheels[chain[i]].start + interval <= wheels[chain[j]].start)
    && (forall w :: 0 <= w < |wheels| ==> (wheels[w].start - wheels[0].start) % interval == 0)
  }

  /** A slot's bucket starts where the slot does; every bucket has one slot. */
  ghost predicate SlotsOk(wheels: seq<Wheel>, buckets: seq<Bucket>, owners: seq<Owner>, c: Config) {
    && |owners| == |buckets|
    && (forall b :: 0 <= b < |owners| ==>
          owners[b].wheel < |wheels| && owners[b].index in wheels[owners[b].wheel].slots
          && wheels[owners[b].wheel].slots[owners[b].index] == b)
    && (forall w, k :: 0 <= w < |wheels| && k in wheels[w].slots ==>
          && 0 <= k < c.wheelSize
          && wheels[w].slots[k] < |buckets|
          && owners[wheels[w].slots[k]] == Owner(w, k)
          && buckets[wheels[w].slots[k]].expiration == wheels[w].start + k * c.tick)
  }

  function ItemOf(buckets: seq<Bucket>, b: nat, tick: int): Item
    requires b < |buckets| && tick > 0
  {
    Item(b, TimeToPrecision(buckets[b].expiration, tick))
  }

  /** A bucket is in the queue exactly once if its flag is set, and not at all otherwise. */
  ghost predicate QueueOk(items: multiset<Item>, buckets: seq<Bucket>, tick: int)
    requires tick > 0
  {
    && (forall x :: x in items ==> x.bucket < |buckets| && x == ItemOf(buckets, x.bucket, tick))
    && (forall b :: 0 <= b < |buckets| ==> items[ItemOf(buckets, b, tick)] == if buckets[b].inQueue then 1 else 0)
  }

  /** An armed timer is listed in its bucket, which covers its expiration. */
  ghost predicate TimerOk(buckets: seq<Bucket>, timers: seq<Timer>, t: nat, tick: int)
    requires t < |timers|
  {
    var x := timers[t];
    x.bucket.Some? ==>
      && x.bucket.value < |buckets|
      && buckets[x.bucket.value].expiration <= x.expiration < buckets[x.bucket.value].expiration + tick
      && Entry(t, x.element) in buckets[x.bucket.value].entries
  }

  /** An entry of a one-shot timer is never stale. */
  ghost predicate EntryOk(timers: seq<Timer>, elements: nat, b: nat, e: Entry) {
    && e.timer < |timers| && e.element < elements
    && (!Repeats(timers[e.timer]) ==> timers[e.timer].bucket == Some(b) && timers[e.timer].element == e.element)
  }

  ghost predicate TimersOk(buckets: seq<Bucket>, timers: seq<Timer>, elements: nat, tick: int) {
    && (forall t :: 0 <= t < |timers| ==> TimerOk(buckets, timers, t, tick))
    && (forall b, e :: 0 <= b < |buckets| && e in buckets[b].entries ==> EntryOk(timers, elements, b, e))
  }

  /** One-shot callbacks ran at most once, listed by their timer's own bucket, and what its own
      bucket listed did not run too early; `running` is the timer whose callback is running now. */
  ghost predicate FiredOk(fired: seq<Firing>, timers: seq<Timer>, tick: int, running: Option<nat>) {
    && (forall i :: 0 <= i < |fired| ==> fired[i].timer < |timers|)
    && (forall i :: 0 <= i < |fired| && !Repeats(timers[fired[i].timer]) ==>
          && (running != Some(fired[i].timer) ==> timers[fired[i].timer].bucket == None)
          && fired[i].own == fired[i].listed)
    && (forall i :: 0 <= i < |fired| && fired[i].own == fired[i].listed ==> fired[i].now > fired[i].expiration - 2 * tick)
    && (forall i, j :: 0 <= i < j < |fired| && fired[i].timer == fired[j].timer ==> Repeats(timers[fired[i].timer]))
  }

  /** The times at which a timer was due are its repeat duration apart, or more; so is the time at
      which it is due next. While its callback runs it is due when it was. */
  ghost predicate SpacedOk(fired: seq<Firing>, timers: seq<Timer>, running: Option<nat>) {
    && (forall i, j :: 0 <= i < j < |fired| && fired[i].timer == fired[j].timer && fired[i].timer < |timers| ==>
          fired[j].expiration >= fired[i].expiration + Period(timers[fired[i].timer]))
    && (forall i :: 0 <= i < |fired| && fired[i].timer < |timers| && timers[fired[i].timer].bucket.Some? ==>
          timers[fired[i].timer].expiration >= fired[i].expiration
                                               + if running == Some(fired[i].timer) then 0 else Period(timers[fired[i].timer]))
  }

  /** The repeat duration in milliseconds. */
  function Period(t: Timer): int {
    t.repeatNs / 1_000_000
  }

  /** `e` is a repeat duration after all times at which `t` was due. */
  ghost predicate Spaced(s: State, t: nat, e: int)
    requires t < |s.timers|
  {
    forall i :: 0 <= i < |s.fired| && s.fired[i].timer == t ==> e >= s.fired[i].expiration + Period(s.timers[t])
  }

  /** A cancelled timer is idle, and has not run since. */
  ghost predicate CancelledOk(cancelled: map<nat, nat>, timers: seq<Timer>, fired: seq<Firing>) {
    && (forall t :: t in cancelled ==> t < |timers| && timers[t].bucket == None)
    && Silent(cancelled, fired)
  }

  ghost predicate Silent(cancelled: map<nat, nat>, fired: seq<Firing>) {
    && (forall t :: t in cancelled ==> cancelled[t] <= |fired|)
    && (forall i :: 0 <= i < |fired| && fired[i].timer in cancelled ==> i < cancelled[fired[i].timer])
  }

  /** Cancellations are never taken back. */
  ghost predicate Extends(c: map<nat, nat>, c': map<nat, nat>) {
    forall t :: t in c ==> t in c' && c'[t] == c[t]
  }

  ghost predicate Inv(s: State, c: Config, running: Option<nat>) {
    && ConfigOk(c)
    && WheelsOk(s.wheels, s.chain, Interval(c)) && s.handler < |s.wheels|
    && SlotsOk(s.wheels, s.buckets, s.owners, c)
    && QueueOk(s.items, s.buckets, c.tick)
    && TimersOk(s.buckets, s.timers, s.elements, c.tick)
    && FiredOk(s.fired, s.timers, c.tick, running) && SpacedOk(s.fired, s.timers, running)
    && CancelledOk(s.cancelled, s.timers, s.fired)
  }

  /** Every armed timer's bucket is queued, or it is about to be processed: it is among the
      popped buckets `later`, or `cur` and the timer is among the entries still to visit. */
  ghost predicate Armed(s: State, later: seq<nat>, cur: Option<nat>, rest: seq<Entry>) {
    forall t :: 0 <= t < |s.timers| && s.timers[t].bucket.Some? ==> ArmedOne(s, later, cur, rest, t)
  }

  ghost predicate ArmedOne(s: State, later: seq<nat>, cur: Option<nat>, rest: seq<Entry>, t: nat)
    requires t < |s.timers| && s.timers[t].bucket.Some?
  {
    var b := s.timers[t].bucket.value;
    b < |s.buckets| && (s.buckets[b].inQueue || b in later || (cur == Some(b) && Entry(t, s.timers[t].element) in rest))
  }

  /** What an operation leaves alone: an existing timer keeps everything unless it is cancelled,
      and only `x` and new timers may be armed, in queued buckets; flags are only set; the past
      is kept. */
  ghost predicate Quiet(s: State, s': State, x: Option<nat>) {
    && |s.timers| <= |s'.timers| && Kept(s, s') && Listings(s, s', x)
    && (forall t :: 0 <= t < |s.timers| && Some(t) != x ==>
          s'.timers[t] == s.timers[t] || (s'.timers[t] == s.timers[t].(bucket := None) && t in s'.cancelled))
    && (forall t :: 0 <= t < |s.timers| && Some(t) == x ==> s'.timers[t].repeatNs == s.timers[t].repeatNs)
    && (forall t :: 0 <= t < |s'.timers| && (t >= |s.timers| || Some(t) == x) ==> NoneOrQueued(s', t))
  }

  /** Bucket `b` has an entry of timer `t`, be it a stale one. */
  ghost predicate Lists(s: State, b: nat, t: nat) {
    b < |s.buckets| && exists e :: e in s.buckets[b].entries && e.timer == t
  }

  /** No bucket comes to list an existing timer but `x`, and none ceases to, unless the timer was
      cancelled or is `x` and does not repeat. */
  ghost predicate Listings(s: State, s': State, x: Option<nat>) {
    && (forall b: nat, t: nat {:trigger Lists(s', b, t)} ::
          t < |s.timers| && Some(t) != x && Lists(s', b, t) ==> Lists(s, b, t))
    && (forall b: nat, t: nat {:trigger Lists(s, b, t)} ::
          t < |s.timers| && Lists(s, b, t) ==> Lists(s', b, t) || t in s'.cancelled || (Some(t) == x && !Repeats(s.timers[t])))
  }

  /** A bucket whose rounded time has come. */
  ghost predicate Up(s: State, b: nat, now: int, tick: int) {
    b < |s.buckets| && tick > 0 && TimeToPrecision(s.buckets[b].expiration, tick) <= now
  }

  /** A timer that is not armed was cancelled, or is a one-shot timer and its callback ran. */
  ghost predicate NoneLost(s: State) {
    forall t :: 0 <= t < |s.timers| && s.timers[t].bucket == None ==>
      t in s.cancelled || (!Repeats(s.timers[t]) && RanSince(0, s.fired, t))
  }

  ghost predicate RanSince(n: nat, fired: seq<Firing>, t: nat) {
    exists i :: n <= i < |fired| && fired[i].timer == t
  }

  ghost predicate NoneOrQueued(s: State, t: nat)
    requires t < |s.timers|
  {
    s.timers[t].bucket.Some? ==>
      s.timers[t].bucket.value < |s.buckets| && s.buckets[s.timers[t].bucket.value].inQueue
  }

  ghost predicate Kept(s: State, s': State) {
    && |s.buckets| <= |s'.buckets| && |s.wheels| <= |s'.wheels| && s'.handler == s.handler
    && (forall b :: 0 <= b < |s.buckets| ==>
          s'.buckets[b].expiration == s.buckets[b].expiration && (s.buckets[b].inQueue ==> s'.buckets[b].inQueue))
    && (forall w :: 0 <= w < |s.wheels| ==> s'.wheels[w].start == s.wheels[w].start)
    && s.fired <= s'.fired && Extends(s.cancelled, s'.cancelled)
  }

  lemma ListingsTrans(s: State, s': State, s'': State, x: Option<nat>)
    requires Listings(s, s', x) && Listings(s', s'', x) && |s.timers| <= |s'.timers|
    requires Extends(s'.cancelled, s''.cancelled)
    requires forall t :: 0 <= t < |s.timers| ==> s'.timers[t].repeatNs == s.timers[t].repeatNs
    ensures Listings(s, s'', x)
  {
    hide Lists;
  }

  lemma SameEntries(s: State, s': State, x: Option<nat>)
    requires |s.timers| <= |s'.timers| && |s.buckets| <= |s'.buckets|
    requires forall b :: 0 <= b < |s.buckets| ==> s'.buckets[b].entries == s.buckets[b].entries
    requires forall b :: |s.buckets| <= b < |s'.buckets| ==> s'.buckets[b].entries == []
    ensures Listings(s, s', x)
  {
  }

  lemma QuietTrans(s: State, s': State, s'': State, x: Option<nat>)
    requires Quiet(s, s', x) && Quiet(s', s'', x)
    requires x.Some? ==> x.value < |s.timers|
    ensures Quiet(s, s'', x)
  {
    hide NoneOrQueued, Lists;
    ListingsTrans(s, s', s'', x);
    hide Listings;
    forall t | 0 <= t < |s''.timers| && (t >= |s.timers| || Some(t) == x)
      ensures NoneOrQueued(s'', t)
    {
      if t < |s'.timers| && Some(t) != x {
        assert NoneOrQueued(s', t);
        NoneOrQueuedStays(s', s'', t);
      }
    }
  }

  lemma NoneOrQueuedStays(s: State, s': State, t: nat)
    requires t < |s.timers| <= |s'.timers| && NoneOrQueued(s, t) && Kept(s, s')
    requires s'.timers[t] == s.timers[t] || s'.timers[t].bucket == None
    ensures NoneOrQueued(s', t)
  {
  }

  lemma ArmedStays(s: State, s': State, later: seq<nat>, cur: Option<nat>, rest: seq<Entry>, x: Option<nat>)
    requires Armed(s, later, cur, rest) && Quiet(s, s', x)
    ensures Armed(s', later, cur, rest)
  {
    hide Listings;
    forall t | 0 <= t < |s'.timers| && s'.timers[t].bucket.Some?
      ensures ArmedOne(s', later, cur, rest, t)
    {
      if t < |s.timers| && Some(t) != x {
        assert s'.timers[t] == s.timers[t];
        assert ArmedOne(s, later, cur, rest, t);
      } else {
        assert NoneOrQueued(s', t);
      }
    }
  }

  // ---------------------------------------------------------------- single changes

  /** The wheel gets a bucket for slot `k`. */
  function NewBucket(s: State, w: nat, k: int, tick: int): State
    requires w < |s.wheels|
  {
    s.(wheels := s.wheels[w := s.wheels[w].(slots := s.wheels[w].slots[k := |s.buckets|])],
       buckets := s.buckets + [Bucket(s.wheels[w].start + k * tick, [], false)],
       owners := s.owners + [Owner(w, k)])
  }

  lemma NewBucketOk(s: State, w: nat, k: int, c: Config, running: Option<nat>)
    requires Inv(s, c, running) && w < |s.wheels| && k !in s.wheels[w].slots && 0 <= k < c.wheelSize
    ensures Inv(NewBucket(s, w, k, c.tick), c, running)
    ensures Quiet(s, NewBucket(s, w, k, c.tick), None)
  {
    hide TimeToPrecision, TimerOk, EntryOk, FiredOk, SpacedOk, Interval;
    var s' := NewBucket(s, w, k, c.tick);
    assert WheelsOk(s'.wheels, s'.chain, Interval(c));
    NewBucketSlots(s, w, k, c);
    hide WheelsOk, SlotsOk;
    NewBucketQueue(s, s', c.tick);
    NewBucketTimers(s, s', c.tick);
    SameEntries(s, s', None);
    hide Listings;
  }

  lemma NewBucketSlots(s: State, w: nat, k: int, c: Config)
    requires SlotsOk(s.wheels, s.buckets, s.owners, c) && w < |s.wheels| && k !in s.wheels[w].slots && 0 <= k < c.wheelSize
    ensures var s' := NewBucket(s, w, k, c.tick); SlotsOk(s'.wheels, s'.buckets, s'.owners, c)
  {
  }

  lemma NewBucketQueue(s: State, s': State, tick: int)
    requires tick > 0 && QueueOk(s.items, s.buckets, tick)
    requires |s'.buckets| == |s.buckets| + 1 && s'.buckets[..|s.buckets|] == s.buckets && s'.items == s.items
    requires !s'.buckets[|s.buckets|].inQueue
    ensures QueueOk(s'.items, s'.buckets, tick)
  {
    hide TimeToPrecision;
    forall b | 0 <= b < |s.buckets|
      ensures s'.buckets[b] == s.buckets[b]
    {
      assert s'.buckets[..|s.buckets|][b] == s.buckets[b];
    }
    var x := ItemOf(s'.buckets, |s.buckets|, tick);
    assert x !in s.items;
  }

  lemma NewBucketTimers(s: State, s': State, tick: int)
    requires TimersOk(s.buckets, s.timers, s.elements, tick)
    requires |s'.buckets| == |s.buckets| + 1 && s'.buckets[..|s.buckets|] == s.buckets
    requires s'.timers == s.timers && s'.elements == s.elements && s'.buckets[|s.buckets|].entries == []
    ensures TimersOk(s'.buckets, s'.timers, s'.elements, tick)
  {
    hide EntryOk;
    forall b | 0 <= b < |s.buckets|
      ensures s'.buckets[b] == s.buckets[b]
    {
      assert s'.buckets[..|s.buckets|][b] == s.buckets[b];
    }
    forall t | 0 <= t < |s.timers|
      ensures TimerOk(s'.buckets, s'.timers, t, tick)
    {
      assert TimerOk(s.buckets, s.timers, t, tick);
    }
  }

  /** Timer `t` is pushed to the back of bucket `b` and due at `e`. */
  function PutTimer(s: State, b: nat, t: nat, e: int): State
    requires b < |s.buckets| && t < |s.timers|
  {
    s.(buckets := s.buckets[b := s.buckets[b].(entries := s.buckets[b].entries + [Entry(t, s.elements)])],
       timers := s.timers[t := s.timers[t].(expiration := e, bucket := Some(b), element := s.elements)],
       elements := s.elements + 1)
  }

  /** May be armed: not cancelled, and it repeats or is idle and its callback never ran. */
  ghost predicate MayArm(s: State, t: nat)
    requires t < |s.timers|
  {
    t !in s.cancelled
    && (Repeats(s.timers[t])
        || (s.timers[t].bucket == None && forall i :: 0 <= i < |s.fired| ==> s.fired[i].timer != t))
  }

  lemma PutTimerOk(s: State, b: nat, t: nat, e: int, c: Config, running: Option<nat>)
    requires Inv(s, c, running) && b < |s.buckets| && t < |s.timers| && MayArm(s, t)
    requires s.buckets[b].expiration <= e < s.buckets[b].expiration + c.tick && Spaced(s, t, e)
    ensures Inv(PutTimer(s, b, t, e), c, running)
  {
    hide TimeToPrecision, WheelsOk, Interval;
    var s' := PutTimer(s, b, t, e);
    assert SlotsOk(s'.wheels, s'.buckets, s'.owners, c);
    PutTimerQueue(s, s', c.tick);
    PutTimerTimers(s, b, t, e, c.tick);
    assert FiredOk(s'.fired, s'.timers, c.tick, running);
  }

  lemma PutTimerQueue(s: State, s': State, tick: int)
    requires tick > 0 && QueueOk(s.items, s.buckets, tick)
    requires s'.items == s.items && |s'.buckets| == |s.buckets|
    requires forall b :: 0 <= b < |s.buckets| ==>
               s'.buckets[b].expiration == s.buckets[b].expiration && s'.buckets[b].inQueue == s.buckets[b].inQueue
    ensures QueueOk(s'.items, s'.buckets, tick)
  {
    hide TimeToPrecision;
    forall b: nat | b < |s.buckets|
      ensures ItemOf(s'.buckets, b, tick) == ItemOf(s.buckets, b, tick)
    {
    }
  }

  lemma PutTimerTimers(s: State, b: nat, t: nat, e: int, tick: int)
    requires TimersOk(s.buckets, s.timers, s.elements, tick)
    requires b < |s.buckets| && t < |s.timers| && MayArm(s, t)
    requires s.buckets[b].expiration <= e < s.buckets[b].expiration + tick
    ensures var s' := PutTimer(s, b, t, e); TimersOk(s'.buckets, s'.timers, s'.elements, tick)
  {
    var s' := PutTimer(s, b, t, e);
    var mine := Entry(t, s.elements);
    forall u | 0 <= u < |s.timers|
      ensures TimerOk(s'.buckets, s'.timers, u, tick)
    {
      assert TimerOk(s.buckets, s.timers, u, tick);
      if u == t {
        assert s'.buckets[b].entries[|s.buckets[b].entries|] == mine;
      } else if s.timers[u].bucket == Some(b) {
        var k :| 0 <= k < |s.buckets[b].entries| && s.buckets[b].entries[k] == Entry(u, s.timers[u].element);
        assert s'.buckets[b].entries[k] == s.buckets[b].entries[k];
      }
    }
    forall d, x | 0 <= d < |s'.buckets| && x in s'.buckets[d].entries
      ensures EntryOk(s'.timers, s'.elements, d, x)
    {
      if x in s.buckets[d].entries {
        assert EntryOk(s.timers, s.elements, d, x);
      } else {
        assert d == b && x == mine;
      }
    }
  }

  /** Bucket `b` enters the queue. */
  function EnqueueBucket(s: State, b: nat, tick: int): State
    requires b < |s.buckets| && tick > 0
  {
    s.(buckets := s.buckets[b := s.buckets[b].(inQueue := true)],
       items := s.items + multiset{ItemOf(s.buckets, b, tick)})
  }

  lemma EnqueueOk(s: State, b: nat, c: Config, running: Option<nat>)
    requires Inv(s, c, running) && b < |s.buckets| && !s.buckets[b].inQueue
    ensures Inv(EnqueueBucket(s, b, c.tick), c, running)
  {
    hide TimeToPrecision, WheelsOk, Interval, FiredOk, SpacedOk, EntryOk;
    var s' := EnqueueBucket(s, b, c.tick);
    FlagTimers(s, s', c.tick);
    assert SlotsOk(s'.wheels, s'.buckets, s'.owners, c);
    forall d: nat | d < |s.buckets|
      ensures ItemOf(s'.buckets, d, c.tick) == ItemOf(s.buckets, d, c.tick)
    {
    }
    assert QueueOk(s'.items, s'.buckets, c.tick);
  }

  /** Queue flags do not matter to the timers. */
  lemma FlagTimers(s: State, s': State, tick: int)
    requires TimersOk(s.buckets, s.timers, s.elements, tick)
    requires s'.timers == s.timers && s'.elements == s.elements && |s'.buckets| == |s.buckets|
    requires forall b :: 0 <= b < |s.buckets| ==>
               s'.buckets[b].expiration == s.buckets[b].expiration && s'.buckets[b].entries == s.buckets[b].entries
    ensures TimersOk(s'.buckets, s'.timers, s'.elements, tick)
  {
    hide EntryOk;
    forall t | 0 <= t < |s.timers|
      ensures TimerOk(s'.buckets, s'.timers, t, tick)
    {
      assert TimerOk(s.buckets, s.timers, t, tick);
    }
  }

  /** Bucket `b` leaves the queue. */
  function DequeueBucket(s: State, b: nat, tick: int): State
    requires b < |s.buckets| && tick > 0
  {
    s.(buckets := s.buckets[b := s.buckets[b].(inQueue := false)],
       items := s.items - multiset{ItemOf(s.buckets, b, tick)})
  }

  lemma DequeueOk(s: State, b: nat, c: Config, running: Option<nat>)
    requires Inv(s, c, running) && b < |s.buckets| && s.buckets[b].inQueue
    ensures Inv(DequeueBucket(s, b, c.tick), c, running)
  {
    hide TimeToPrecision, WheelsOk, Interval, FiredOk, SpacedOk, EntryOk;
    var s' := DequeueBucket(s, b, c.tick);
    FlagTimers(s, s', c.tick);
    assert SlotsOk(s'.wheels, s'.buckets, s'.owners, c);
    forall d: nat | d < |s.buckets|
      ensures ItemOf(s'.buckets, d, c.tick) == ItemOf(s.buckets, d, c.tick)
    {
    }
    assert QueueOk(s'.items, s'.buckets, c.tick);
  }

  /** The list without its element `x`. */
  function Without(q: seq<Entry>, x: Entry): seq<Entry> {
    if q == [] then [] else if q[0] == x then Without(q[1..], x) else [q[0]] + Without(q[1..], x)
  }

  lemma {:induction false} WithoutMembers(q: seq<Entry>, x: Entry, y: Entry)
    ensures y in Without(q, x) <==> y in q && y != x
  {
    if q != [] {
      WithoutMembers(q[1..], x, y);
    }
  }

  /** The timer is taken out of its bucket. */
  function StopTimer(s: State, t: nat): State
    requires t < |s.timers|
    requires s.timers[t].bucket.Some? ==> s.timers[t].bucket.value < |s.buckets|
  {
    if s.timers[t].bucket.None? then s
    else
      var b := s.timers[t].bucket.value;
      s.(buckets := s.buckets[b := s.buckets[b].(entries := Without(s.buckets[b].entries, Entry(t, s.timers[t].element)))],
         timers := s.timers[t := s.timers[t].(bucket := None)])
  }

  /** Timer `t` is out of its bucket; the other timers' entries are where they were. */
  ghost predicate Stopped(s: State, s': State, t: nat) {
    && t < |s.timers| && Kept(s, s') && s'.fired == s.fired && s'.cancelled == s.cancelled
    && s'.timers == s.timers[t := s.timers[t].(bucket := None)]
    && (forall b, u :: Lists(s', b, u) ==> Lists(s, b, u))
    && (forall b, u :: Lists(s, b, u) && u != t ==> Lists(s', b, u))
  }

  lemma StopTimerOk(s: State, t: nat, c: Config, running: Option<nat>)
    requires Inv(s, c, running) && t < |s.timers|
    ensures s.timers[t].bucket.Some? ==> s.timers[t].bucket.value < |s.buckets|
    ensures Inv(StopTimer(s, t), c, running) && Stopped(s, StopTimer(s, t), t)
    ensures running == Some(t) ==> Inv(StopTimer(s, t), c, None)
  {
    hide TimeToPrecision, WheelsOk, Interval, FiredOk, SpacedOk, CancelledOk, QueueOk, SlotsOk, StopTimer, Stopped;
    assert TimerOk(s.buckets, s.timers, t, c.tick);
    StopTimerHistory(s, t, c.tick, running);
    StopTimerSpaced(s, t, running);
    StopTimerEntries(s, t);
    StopTimerParts(s, t, c);
  }

  /** What stopping a timer leaves as it was. */
  lemma StopTimerParts(s: State, t: nat, c: Config)
    requires c.tick > 0 && t < |s.timers| && TimersOk(s.buckets, s.timers, s.elements, c.tick)
    requires SlotsOk(s.wheels, s.buckets, s.owners, c) && QueueOk(s.items, s.buckets, c.tick)
    requires s.timers[t].bucket.Some? ==> s.timers[t].bucket.value < |s.buckets|
    ensures
      var s' := StopTimer(s, t);
      && TimersOk(s'.buckets, s'.timers, s'.elements, c.tick)
      && SlotsOk(s'.wheels, s'.buckets, s'.owners, c) && QueueOk(s'.items, s'.buckets, c.tick)
      && s'.wheels == s.wheels && s'.chain == s.chain && s'.handler == s.handler
  {
    hide TimeToPrecision, TimersOk, QueueOk, Without;
    if s.timers[t].bucket.Some? {
      StopTimerTimers(s, t, c.tick);
      PutTimerQueue(s, StopTimer(s, t), c.tick);
    }
  }

  lemma StopTimerEntries(s: State, t: nat)
    requires t < |s.timers|
    requires s.timers[t].bucket.Some? ==> s.timers[t].bucket.value < |s.buckets|
    ensures Stopped(s, StopTimer(s, t), t)
  {
    hide Lists, Without;
    var s' := StopTimer(s, t);
    if s.timers[t].bucket.Some? {
      var b, gone := s.timers[t].bucket.value, Entry(t, s.timers[t].element);
      forall d: nat, u: nat
        ensures (Lists(s', d, u) ==> Lists(s, d, u)) && (Lists(s, d, u) && u != t ==> Lists(s', d, u))
      {
        ListsWithout(s, s', b, gone, d, u);
      }
    }
  }

  lemma ListsWithout(s: State, s': State, b: nat, gone: Entry, d: nat, u: nat)
    requires b < |s.buckets| && s'.buckets == s.buckets[b := s.buckets[b].(entries := Without(s.buckets[b].entries, gone))]
    ensures (Lists(s', d, u) ==> Lists(s, d, u)) && (Lists(s, d, u) && u != gone.timer ==> Lists(s', d, u))
  {
    if Lists(s', d, u) {
      var e :| e in s'.buckets[d].entries && e.timer == u;
      WithoutMembers(s.buckets[b].entries, gone, e);
    }
    if Lists(s, d, u) && u != gone.timer {
      var e :| e in s.buckets[d].entries && e.timer == u;
      WithoutMembers(s.buckets[b].entries, gone, e);
      assert e in s'.buckets[d].entries;
    }
  }

  lemma StopTimerHistory(s: State, t: nat, tick: int, running: Option<nat>)
    requires FiredOk(s.fired, s.timers, tick, running) && CancelledOk(s.cancelled, s.timers, s.fired) && t < |s.timers|
    requires s.timers[t].bucket.Some? ==> s.timers[t].bucket.value < |s.buckets|
    ensures
      var s' := StopTimer(s, t);
      && FiredOk(s'.fired, s'.timers, tick, running) && CancelledOk(s'.cancelled, s'.timers, s'.fired)
      && (running == Some(t) ==> FiredOk(s'.fired, s'.timers, tick, None))
  {
    hide Without;
  }

  lemma StopTimerSpaced(s: State, t: nat, running: Option<nat>)
    requires SpacedOk(s.fired, s.timers, running) && t < |s.timers|
    requires s.timers[t].bucket.Some? ==> s.timers[t].bucket.value < |s.buckets|
    ensures
      var s' := StopTimer(s, t);
      SpacedOk(s'.fired, s'.timers, running) && (running == Some(t) ==> SpacedOk(s'.fired, s'.timers, None))
  {
    hide Without, Period;
    var s' := StopTimer(s, t);
    assert s'.fired == s.fired && |s'.timers| == |s.timers|;
    forall u | 0 <= u < |s.timers|
      ensures s'.timers[u] == (if u == t then s.timers[u].(bucket := None) else s.timers[u])
      ensures Period(s'.timers[u]) == Period(s.timers[u])
    {
      SamePeriod(s'.timers[u], s.timers[u]);
    }
  }

  lemma SamePeriod(t: Timer, u: Timer)
    requires t.repeatNs == u.repeatNs
    ensures Period(t) == Period(u)
  {
  }

  lemma StopTimerTimers(s: State, t: nat, tick: int)
    requires TimersOk(s.buckets, s.timers, s.elements, tick)
    requires t < |s.timers| && s.timers[t].bucket.Some? && s.timers[t].bucket.value < |s.buckets|
    ensures var s' := StopTimer(s, t); TimersOk(s'.buckets, s'.timers, s'.elements, tick)
  {
    var s' := StopTimer(s, t);
    var b := s.timers[t].bucket.value;
    var gone := Entry(t, s.timers[t].element);
    forall u | 0 <= u < |s.timers|
      ensures TimerOk(s'.buckets, s'.timers, u, tick)
    {
      assert TimerOk(s.buckets, s.timers, u, tick);
      WithoutMembers(s.buckets[b].entries, gone, Entry(u, s.timers[u].element));
    }
    forall d, x | 0 <= d < |s'.buckets| && x in s'.buckets[d].entries
      ensures EntryOk(s'.timers, s'.elements, d, x)
    {
      WithoutMembers(s.buckets[b].entries, gone, x);
      assert x in s.buckets[d].entries;
      assert EntryOk(s.timers, s.elements, d, x);
    }
  }

  /** A new timer, not armed yet. */
  function NewTimer(s: State, e: int, repeatNs: int): State {
    s.(timers := s.timers + [Timer(e, repeatNs, None, 0)])
  }

  lemma NewTimerOk(s: State, e: int, repeatNs: int, c: Config, running: Option<nat>)
    requires Inv(s, c, running)
    ensures Inv(NewTimer(s, e, repeatNs), c, running) && Quiet(s, NewTimer(s, e, repeatNs), None)
    ensures MayArm(NewTimer(s, e, repeatNs), |s.timers|) && Spaced(NewTimer(s, e, repeatNs), |s.timers|, e)
  {
    hide TimeToPrecision, WheelsOk, SlotsOk, QueueOk, Interval;
    var s' := NewTimer(s, e, repeatNs);
    SameEntries(s, s', None);
    hide Listings;
    forall t | 0 <= t < |s'.timers|
      ensures TimerOk(s'.buckets, s'.timers, t, c.tick)
    {
      if t < |s.timers| {
        assert TimerOk(s.buckets, s.timers, t, c.tick);
      }
    }
    forall b, x | 0 <= b < |s.buckets| && x in s.buckets[b].entries
      ensures EntryOk(s'.timers, s'.elements, b, x)
    {
      assert EntryOk(s.timers, s.elements, b, x);
    }
  }

  /** The callback of `t` starts to run. */
  function RunCallback(s: State, t: nat, now: int, listed: nat): State
    requires t < |s.timers| && s.timers[t].bucket.Some?
  {
    s.(fired := s.fired + [Firing(t, now, s.timers[t].expiration, listed, s.timers[t].bucket.value)])
  }

  /** Bucket `listed`, which has come up, lists the timer. */
  lemma RunCallbackOk(s: State, t: nat, now: int, listed: nat, c: Config)
    requires Inv(s, c, None) && t < |s.timers| && s.timers[t].bucket.Some?
    requires Lists(s, listed, t) && Up(s, listed, now, c.tick)
    ensures Inv(RunCallback(s, t, now, listed), c, Some(t)) && Quiet(s, RunCallback(s, t, now, listed), None)
  {
    ListedIsOwn(s, t, listed, now, c);
    SameEntries(s, RunCallback(s, t, now, listed), None);
    hide TimeToPrecision, WheelsOk, SlotsOk, QueueOk, Interval, TimersOk, Listings, Up;
  }

  /** An armed one-shot timer is listed by its own bucket only; and what its own bucket lists
      comes up when less than two ticks are left. */
  lemma ListedIsOwn(s: State, t: nat, listed: nat, now: int, c: Config)
    requires Inv(s, c, None) && t < |s.timers| && Lists(s, listed, t) && Up(s, listed, now, c.tick)
    ensures !Repeats(s.timers[t]) ==> s.timers[t].bucket == Some(listed)
    ensures s.timers[t].bucket == Some(listed) ==> now > s.timers[t].expiration - 2 * c.tick
  {
    hide WheelsOk, SlotsOk, QueueOk, Interval, FiredOk, SpacedOk, CancelledOk, TimeToPrecision;
    var e :| e in s.buckets[listed].entries && e.timer == t;
    assert EntryOk(s.timers, s.elements, listed, e) && TimerOk(s.buckets, s.timers, t, c.tick);
    Rounding(s.buckets[listed].expiration, now, c.tick);
  }

  lemma Rounding(e: int, now: int, tick: int)
    requires tick > 0
    ensures e <= now ==> TimeToPrecision(e, tick) <= now
    ensures TimeToPrecision(e, tick) <= now ==> e < now + tick
  {
    assert e == e / tick * tick + e % tick;
  }

  /** A wheel enters the chain behind position `pos`. */
  function InsertWheel(s: State, pos: nat, start: int): State
    requires pos < |s.chain| && s.chain[pos] < |s.wheels|
  {
    var w, new_ := s.chain[pos], |s.wheels|;
    s.(wheels := s.wheels[w := s.wheels[w].(overflow := Some(new_))] + [Wheel(start, map[], s.wheels[w].overflow)],
       chain := s.chain[..pos + 1] + [new_] + s.chain[pos + 1..])
  }

  lemma InsertWheelOk(s: State, pos: nat, start: int, c: Config, running: Option<nat>)
    requires Inv(s, c, running) && pos < |s.chain|
    requires (start - s.wheels[0].start) % Interval(c) == 0
    requires s.wheels[s.chain[pos]].start + Interval(c) <= start
    requires pos + 1 < |s.chain| ==> start + Interval(c) <= s.wheels[s.chain[pos + 1]].start
    ensures Inv(InsertWheel(s, pos, start), c, running) && Quiet(s, InsertWheel(s, pos, start), None)
  {
    hide TimeToPrecision, QueueOk, TimersOk, FiredOk, SpacedOk, CancelledOk, SlotsOk, Interval;
    assert s.chain[pos] < |s.wheels|;
    hide WheelsOk;
    SameEntries(s, InsertWheel(s, pos, start), None);
    hide Listings;
    InsertWheelChain(s, pos, start, Interval(c));
    InsertWheelSlots(s, pos, start, c);
  }

  lemma InsertWheelSlots(s: State, pos: nat, start: int, c: Config)
    requires SlotsOk(s.wheels, s.buckets, s.owners, c) && pos < |s.chain| && s.chain[pos] < |s.wheels| && c.tick > 0
    ensures var s' := InsertWheel(s, pos, start); SlotsOk(s'.wheels, s'.buckets, s'.owners, c)
  {
    hide Interval;
  }

  lemma InsertWheelChain(s: State, pos: nat, start: int, interval: int)
    requires WheelsOk(s.wheels, s.chain, interval) && pos < |s.chain|
    requires (start - s.wheels[0].start) % interval == 0
    requires s.wheels[s.chain[pos]].start + interval <= start
    requires pos + 1 < |s.chain| ==> start + interval <= s.wheels[s.chain[pos + 1]].start
    ensures var s' := InsertWheel(s, pos, start); WheelsOk(s'.wheels, s'.chain, interval)
  {
    InsertWheelMembers(s, pos, start, interval);
    InsertWheelLinks(s, pos, start, interval);
    InsertWheelOrder(s, pos, start, interval);
  }

  lemma InsertWheelMembers(s: State, pos: nat, start: int, interval: int)
    requires WheelsOk(s.wheels, s.chain, interval) && pos < |s.chain|
    ensures var s' := InsertWheel(s, pos, start); forall w :: 0 <= w < |s'.wheels| ==> w in s'.chain
  {
    var s' := InsertWheel(s, pos, start);
    forall w | 0 <= w < |s'.wheels|
      ensures w in s'.chain
    {
      if w == |s.wheels| {
        assert s'.chain[pos + 1] == w;
      } else {
        assert w in s.chain;
        var i :| 0 <= i < |s.chain| && s.chain[i] == w;
        assert s'.chain[if i <= pos then i else i + 1] == w;
      }
    }
  }

  lemma InsertWheelLinks(s: State, pos: nat, start: int, interval: int)
    requires WheelsOk(s.wheels, s.chain, interval) && pos < |s.chain|
    ensures
      var s' := InsertWheel(s, pos, start);
      forall i {:trigger NextInChain(s'.chain, i)} :: 0 <= i < |s'.chain| ==>
        s'.chain[i] < |s'.wheels| && s'.wheels[s'.chain[i]].overflow == NextInChain(s'.chain, i)
  {
    var s' := InsertWheel(s, pos, start);
    forall i {:trigger NextInChain(s'.chain, i)} | 0 <= i < |s'.chain|
      ensures s'.chain[i] < |s'.wheels| && s'.wheels[s'.chain[i]].overflow == NextInChain(s'.chain, i)
    {
      if i <= pos {
        assert s.wheels[s.chain[i]].overflow == NextInChain(s.chain, i);
        if i < pos {
          ChainDistinct(s.wheels, s.chain, interval, i, pos);
        }
      } else if i == pos + 1 {
        assert s.wheels[s.chain[pos]].overflow == NextInChain(s.chain, pos);
      } else {
        assert s.wheels[s.chain[i - 1]].overflow == NextInChain(s.chain, i - 1);
        ChainDistinct(s.wheels, s.chain, interval, pos, i - 1);
      }
    }
  }

  lemma ChainDistinct(wheels: seq<Wheel>, chain: seq<nat>, interval: int, i: nat, j: nat)
    requires WheelsOk(wheels, chain, interval) && i < |chain| && j < |chain| && i != j
    ensures chain[i] != chain[j]
  {
    if i < j {
      assert wheels[chain[i]].start + interval <= wheels[chain[j]].start;
    } else {
      assert wheels[chain[j]].start + interval <= wheels[chain[i]].start;
    }
  }

  lemma InsertWheelStart(s: State, pos: nat, start: int, interval: int, i: nat)
    requires WheelsOk(s.wheels, s.chain, interval) && pos < |s.chain| && i <= |s.chain|
    ensures
      var s' := InsertWheel(s, pos, start);
      && |s'.chain| == |s.chain| + 1
      && s'.chain[i] < |s'.wheels|
      && s'.wheels[s'.chain[i]].start ==
         if i <= pos then s.wheels[s.chain[i]].start else if i == pos + 1 then start else s.wheels[s.chain[i - 1]].start
  {
  }

  lemma InsertWheelPair(s: State, pos: nat, start: int, interval: int, i: nat, j: nat)
    requires WheelsOk(s.wheels, s.chain, interval) && pos < |s.chain| && i < j <= |s.chain|
    requires s.wheels[s.chain[pos]].start + interval <= start
    requires pos + 1 < |s.chain| ==> start + interval <= s.wheels[s.chain[pos + 1]].start
    ensures
      var s' := InsertWheel(s, pos, start);
      && |s'.chain| == |s.chain| + 1
      && s'.chain[i] < |s'.wheels| && s'.chain[j] < |s'.wheels|
      && s'.wheels[s'.chain[i]].start + interval <= s'.wheels[s'.chain[j]].start
  {
    hide InsertWheel;
    InsertWheelStart(s, pos, start, interval, i);
    InsertWheelStart(s, pos, start, interval, j);
  }

  lemma InsertWheelOrder(s: State, pos: nat, start: int, interval: int)
    requires WheelsOk(s.wheels, s.chain, interval) && pos < |s.chain|
    requires s.wheels[s.chain[pos]].start + interval <= start
    requires pos + 1 < |s.chain| ==> start + interval <= s.wheels[s.chain[pos + 1]].start
    ensures
      var s' := InsertWheel(s, pos, start);
      && |s'.chain| == |s.chain| + 1
      && (forall i :: 0 <= i < |s'.chain| ==> s'.chain[i] < |s'.wheels|)
      && (forall i, j :: 0 <= i < j < |s'.chain| ==> s'.wheels[s'.chain[i]].start + interval <= s'.wheels[s'.chain[j]].start)
  {
    hide InsertWheel;
    var s' := InsertWheel(s, pos, start);
    InsertWheelStart(s, pos, start, interval, 0);
    forall i | 0 <= i < |s'.chain|
      ensures s'.chain[i] < |s'.wheels|
    {
      InsertWheelStart(s, pos, start, interval, i);
    }
    forall i, j | 0 <= i < j < |s'.chain|
      ensures s'.wheels[s'.chain[i]].start + interval <= s'.wheels[s'.chain[j]].start
    {
      InsertWheelPair(s, pos, start, interval, i, j);
    }
  }
}
