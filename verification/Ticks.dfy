/** A tick of the timer wheels, seen from the states between its steps: what was due when the
    tick began runs or is cancelled, whatever the callbacks do. */
module Ticks {
  import opened Common
  import opened BitOps
  import opened DelayQueue
  import opened TimerWheel
  import opened Timers

  // ---------------------------------------------------------------- a timer's next run

  /** The first run of `t` among the callbacks from number `n` on. */
  ghost predicate First(n: nat, fired: seq<Firing>, t: nat, i: nat) {
    n <= i < |fired| && fired[i].timer == t && forall j :: n <= j < i ==> fired[j].timer != t
  }

  /** A run of `t` as `s` lets one expect it: when it was due and where it was are what they are
      in `s`, and a bucket that lists `t` in `s` had come up. */
  ghost predicate AsSeen(s: State, t: nat, f: Firing, tick: int)
    requires t < |s.timers|
  {
    && f.expiration == s.timers[t].expiration && s.timers[t].bucket == Some(f.own)
    && Lists(s, f.listed, t) && Up(s, f.listed, f.now, tick)
  }

  /** What became of `t`: if it has run since, its next run was as `s` lets one expect it. */
  ghost predicate NextRun(s: State, s': State, t: nat, tick: int)
    requires t < |s.timers|
  {
    && (forall i: nat :: First(|s.fired|, s'.fired, t, i) ==> AsSeen(s, t, s'.fired[i], tick))
    && (!RanSince(|s.fired|, s'.fired, t) ==>
          && t < |s'.timers| && (s'.timers[t] == s.timers[t] || s'.timers[t].bucket == None)
          && forall b :: Lists(s', b, t) ==> Lists(s, b, t))
  }

  /** Idle timers stayed idle, and every timer's next run is as was to be expected. */
  ghost predicate Later(s: State, s': State, tick: int) {
    && Respects(s, s') && SameStarts(s, s')
    && forall t :: 0 <= t < |s.timers| ==> NextRun(s, s', t, tick)
  }

  ghost predicate SameStarts(s: State, s': State) {
    |s.buckets| <= |s'.buckets| && forall b :: 0 <= b < |s.buckets| ==> s'.buckets[b].expiration == s.buckets[b].expiration
  }

  lemma LaterSelf(s: State, tick: int)
    ensures Later(s, s, tick)
  {
  }

  lemma LaterTrans(s: State, s': State, s'': State, tick: int)
    requires Later(s, s', tick) && Later(s', s'', tick)
    ensures Later(s, s'', tick)
  {
    RespectsTrans(s, s', s'');
    forall t | 0 <= t < |s.timers|
      ensures NextRun(s, s'', t, tick)
    {
      assert NextRun(s, s', t, tick) && NextRun(s', s'', t, tick);
      NextRunTrans(s, s', s'', t, tick);
    }
  }

  lemma NextRunTrans(s: State, s': State, s'': State, t: nat, tick: int)
    requires t < |s.timers| <= |s'.timers| && s.fired <= s'.fired && s'.fired <= s''.fired && SameStarts(s, s')
    requires NextRun(s, s', t, tick) && NextRun(s', s'', t, tick)
    ensures NextRun(s, s'', t, tick)
  {
    hide Lists;
    forall i: nat | First(|s.fired|, s''.fired, t, i)
      ensures AsSeen(s, t, s''.fired[i], tick)
    {
      FirstIn(s, s', s'', t, i);
      if i >= |s'.fired| {
        SeenBefore(s, s', t, s''.fired[i], tick);
      }
    }
    if RanSince(|s.fired|, s'.fired, t) {
      RanStays(|s.fired|, s'.fired, s''.fired, t);
    }
    if RanSince(|s'.fired|, s''.fired, t) {
      var i :| |s'.fired| <= i < |s''.fired| && s''.fired[i].timer == t;
      assert RanSince(|s.fired|, s''.fired, t);
    }
  }

  lemma SeenBefore(s: State, s': State, t: nat, f: Firing, tick: int)
    requires t < |s.timers| <= |s'.timers| && SameStarts(s, s') && AsSeen(s', t, f, tick)
    requires s'.timers[t] == s.timers[t] && forall b :: Lists(s', b, t) ==> Lists(s, b, t)
    ensures AsSeen(s, t, f, tick)
  {
    hide TimeToPrecision;
    assert Lists(s, f.listed, t);
  }

  lemma FirstIn(s: State, s': State, s'': State, t: nat, i: nat)
    requires s.fired <= s'.fired && s'.fired <= s''.fired && First(|s.fired|, s''.fired, t, i)
    ensures i < |s'.fired| ==> First(|s.fired|, s'.fired, t, i) && s''.fired[i] == s'.fired[i]
    ensures i >= |s'.fired| ==> First(|s'.fired|, s''.fired, t, i) && !RanSince(|s.fired|, s'.fired, t)
  {
    assert forall j :: 0 <= j < |s'.fired| ==> s'.fired[j] == s''.fired[j];
  }

  lemma QuietLater(s: State, s': State, tick: int)
    requires Quiet(s, s', None) && s'.fired == s.fired
    ensures Later(s, s', tick)
  {
    hide Lists, NoneOrQueued;
    QuietRespects(s, s');
  }

  lemma FlagsLater(s: State, s': State, tick: int)
    requires OnlyFlags(s, s')
    ensures Later(s, s', tick)
  {
    forall b: nat, t: nat
      ensures Lists(s', b, t) ==> Lists(s, b, t)
    {
    }
    hide Lists;
  }

  /** A callback that bucket `listed` brought up, and its aftermath. */
  lemma FiredLater(s: State, s2: State, s3: State, t: nat, now: int, listed: nat, tick: int)
    requires t < |s.timers| && s.timers[t].bucket.Some? && Lists(s, listed, t) && Up(s, listed, now, tick)
    requires Quiet(s, s2, None) && Elsewhere(s2, s3, t) && NoneOrQueued(s3, t)
    requires s2.fired == RunCallback(s, t, now, listed).fired
    ensures Quiet(s, s3, Some(t)) && Later(s, s3, tick)
  {
    FiredQuiet(s, s2, s3, t);
    assert s3.fired[|s.fired|].timer == t;
    hide Lists, NoneOrQueued, Respects, Up;
    forall u | 0 <= u < |s.timers|
      ensures NextRun(s, s3, u, tick)
    {
      if u == t {
        assert RanSince(|s.fired|, s3.fired, t);
      }
    }
  }

  // ---------------------------------------------------------------- one tick

  /** The listed timers that are armed are listed by the bucket still. */
  ghost predicate StillListed(s: State, b: nat, rest: seq<Entry>) {
    forall j :: 0 <= j < |rest| ==>
      rest[j].timer < |s.timers| && (s.timers[rest[j].timer].bucket.Some? ==> Lists(s, b, rest[j].timer))
  }

  /** During a tick at `now`: only callbacks of this moment were added, idle timers stayed idle,
      and the wheels that existed are in place. */
  ghost predicate Progress(s0: State, s: State, now: int, tick: int) {
    && Later(s0, s, tick)
    && (forall i :: |s0.fired| <= i < |s.fired| ==> s.fired[i].now == now)
    && s.handler == s0.handler && |s0.wheels| <= |s.wheels|
    && (forall w :: 0 <= w < |s0.wheels| ==> s.wheels[w].start == s0.wheels[w].start)
  }

  /** Was cancelled, or its callback ran since `s0`. */
  ghost predicate Settled(s0: State, s: State, t: nat) {
    t in s.cancelled || RanSince(|s0.fired|, s.fired, t)
  }

  /** Untouched so far, and its turn is still to come. */
  ghost predicate Waiting(s0: State, s: State, later: seq<nat>, cur: Option<nat>, rest: seq<Entry>, t: nat)
    requires t < |s0.timers| && s0.timers[t].bucket.Some?
  {
    && t < |s.timers| && s.timers[t] == s0.timers[t]
    && ((exists b :: b in later && Lists(s, b, t)) || (cur.Some? && exists j :: 0 <= j < |rest| && rest[j].timer == t))
  }

  /** Armed, and listed by a queued bucket that has come up. */
  ghost predicate Due(s0: State, t: nat, now: int, tick: int)
    requires t < |s0.timers|
  {
    s0.timers[t].bucket.Some? && exists b: nat :: Lists(s0, b, t) && s0.buckets[b].inQueue && Up(s0, b, now, tick)
  }

  /** An armed timer whose time has come is due. */
  lemma TimeIsDue(s: State, t: nat, now: int, c: Config)
    requires Inv(s, c, None) && Armed(s, [], None, [])
    requires t < |s.timers| && s.timers[t].bucket.Some? && s.timers[t].expiration <= now
    ensures Due(s, t, now, c.tick)
  {
    hide WheelsOk, SlotsOk, QueueOk, FiredOk, SpacedOk, CancelledOk, Interval, TimeToPrecision;
    assert ArmedOne(s, [], None, [], t) && TimerOk(s.buckets, s.timers, t, c.tick);
    var b := s.timers[t].bucket.value;
    Rounding(s.buckets[b].expiration, now, c.tick);
    assert Lists(s, b, t);
  }

  ghost predicate Promise(s0: State, s: State, later: seq<nat>, cur: Option<nat>, rest: seq<Entry>, now: int, tick: int) {
    forall t :: 0 <= t < |s0.timers| && Due(s0, t, now, tick) ==>
      Settled(s0, s, t) || Waiting(s0, s, later, cur, rest, t)
  }

  lemma SettledStays(s0: State, s: State, s': State, t: nat)
    requires Settled(s0, s, t) && s.fired <= s'.fired && Extends(s.cancelled, s'.cancelled)
    ensures Settled(s0, s', t)
  {
    if t !in s.cancelled {
      RanStays(|s0.fired|, s.fired, s'.fired, t);
    }
  }

  /** A timer that is due is listed by a bucket that was just popped. */
  lemma StartPromise(s0: State, s: State, expired: seq<nat>, now: int, tick: int)
    requires OnlyFlags(s0, s) && NoneDue(s, now, tick) && Gone(s0, s, expired)
    ensures Progress(s0, s, now, tick) && Promise(s0, s, expired, None, [], now, tick)
  {
    FlagsLater(s0, s, tick);
    hide Later, TimeToPrecision;
    forall t | 0 <= t < |s0.timers| && Due(s0, t, now, tick)
      ensures Waiting(s0, s, expired, None, [], t)
    {
      var b: nat :| Lists(s0, b, t) && s0.buckets[b].inQueue && Up(s0, b, now, tick);
      assert Lists(s, b, t) && Up(s, b, now, tick);
    }
  }

  lemma OpenBucket(s0: State, s: State, b: nat, later: seq<nat>, now: int, c: Config)
    requires Inv(s, c, None) && Armed(s, [b] + later, None, []) && Soon(s, [b] + later, now, c.tick)
    requires Promise(s0, s, [b] + later, None, [], now, c.tick)
    ensures b < |s.buckets| && Soon(s, later, now, c.tick)
    ensures Armed(s, later, Some(b), s.buckets[b].entries)
    ensures Promise(s0, s, later, Some(b), s.buckets[b].entries, now, c.tick)
    ensures StillListed(s, b, s.buckets[b].entries) && Up(s, b, now, c.tick)
  {
    hide WheelsOk, SlotsOk, QueueOk, FiredOk, SpacedOk, CancelledOk, Interval, TimeToPrecision;
    var all := [b] + later;
    assert all[0] == b;
    forall i | 0 <= i < |later|
      ensures Up(s, later[i], now, c.tick)
    {
      assert all[i + 1] == later[i];
    }
    OpenArmed(s, b, later, c);
    OpenPromise(s0, s, b, later, now, c.tick);
    forall j | 0 <= j < |s.buckets[b].entries|
      ensures s.buckets[b].entries[j].timer < |s.timers| && Lists(s, b, s.buckets[b].entries[j].timer)
    {
      var e := s.buckets[b].entries[j];
      assert e in s.buckets[b].entries;
      assert EntryOk(s.timers, s.elements, b, e);
    }
  }

  lemma OpenArmed(s: State, b: nat, later: seq<nat>, c: Config)
    requires Inv(s, c, None) && Armed(s, [b] + later, None, []) && b < |s.buckets|
    ensures Armed(s, later, Some(b), s.buckets[b].entries)
  {
    hide WheelsOk, SlotsOk, QueueOk, FiredOk, SpacedOk, CancelledOk, Interval;
    forall t | 0 <= t < |s.timers| && s.timers[t].bucket.Some?
      ensures ArmedOne(s, later, Some(b), s.buckets[b].entries, t)
    {
      assert ArmedOne(s, [b] + later, None, [], t) && TimerOk(s.buckets, s.timers, t, c.tick);
    }
  }

  lemma OpenPromise(s0: State, s: State, b: nat, later: seq<nat>, now: int, tick: int)
    requires Promise(s0, s, [b] + later, None, [], now, tick) && b < |s.buckets|
    ensures Promise(s0, s, later, Some(b), s.buckets[b].entries, now, tick)
  {
    hide Due, Settled;
    forall t | 0 <= t < |s0.timers| && Due(s0, t, now, tick) && !Settled(s0, s, t)
      ensures s0.timers[t].bucket.Some? && Waiting(s0, s, later, Some(b), s.buckets[b].entries, t)
    {
      DueArmed(s0, t, now, tick);
      assert Waiting(s0, s, [b] + later, None, [], t);
      var d :| d in [b] + later && Lists(s, d, t);
      if d == b {
        var e :| e in s.buckets[b].entries && e.timer == t;
        var j :| 0 <= j < |s.buckets[b].entries| && s.buckets[b].entries[j] == e;
      } else {
        assert d in later;
      }
    }
  }

  lemma DueArmed(s0: State, t: nat, now: int, tick: int)
    requires t < |s0.timers| && Due(s0, t, now, tick)
    ensures s0.timers[t].bucket.Some?
  {
  }

  lemma NextEntry(s: State, b: nat, e: Entry, rest: seq<Entry>)
    requires StillListed(s, b, [e] + rest)
    ensures e.timer < |s.timers| && (s.timers[e.timer].bucket.Some? ==> Lists(s, b, e.timer))
  {
    assert ([e] + rest)[0] == e;
  }

  /** One entry done, and the rest is as it was. */
  lemma AfterEntry(s0: State, s: State, s': State, later: seq<nat>, b: nat, e: Entry,
                   rest: seq<Entry>, now: int, c: Config)
    requires Armed(s, later, Some(b), [e] + rest) && Soon(s, later, now, c.tick) && StillListed(s, b, [e] + rest) && Up(s, b, now, c.tick)
    requires Progress(s0, s, now, c.tick) && Promise(s0, s, later, Some(b), [e] + rest, now, c.tick)
    requires e.timer < |s.timers| && Quiet(s, s', Some(e.timer)) && Later(s, s', c.tick) && Inv(s', c, None)
    requires s.timers[e.timer].bucket.None? ==> s' == s
    requires
      s.timers[e.timer].bucket.Some? ==>
        |s'.fired| == |s.fired| + 1 && s'.fired[|s.fired|].timer == e.timer && s'.fired[|s.fired|].now == now
    requires !Repeats(s.timers[e.timer]) ==> s'.timers[e.timer].bucket == None
    ensures Armed(s', later, Some(b), rest) && Soon(s', later, now, c.tick) && StillListed(s', b, rest) && Up(s', b, now, c.tick)
    ensures Progress(s0, s', now, c.tick) && Promise(s0, s', later, Some(b), rest, now, c.tick)
  {
    AfterEntryArmed(s, s', later, b, e, rest);
    AfterEntryListed(s, s', b, e, rest, now, c);
    LaterParts(s0, s, c.tick);
    AfterEntryPromise(s0, s, s', later, b, e, rest, now, c.tick);
    LaterTrans(s0, s, s', c.tick);
    hide Promise, Armed, StillListed, Inv, Later, Listings, TimeToPrecision;
  }

  lemma LaterParts(s: State, s': State, tick: int)
    requires Later(s, s', tick)
    ensures |s.fired| <= |s'.fired|
  {
  }

  lemma AfterEntryArmed(s: State, s': State, later: seq<nat>, b: nat, e: Entry, rest: seq<Entry>)
    requires Armed(s, later, Some(b), [e] + rest) && e.timer < |s.timers| && Quiet(s, s', Some(e.timer))
    ensures Armed(s', later, Some(b), rest)
  {
    hide Listings;
    forall t | 0 <= t < |s'.timers| && s'.timers[t].bucket.Some?
      ensures ArmedOne(s', later, Some(b), rest, t)
    {
      if t < |s.timers| && t != e.timer {
        assert s'.timers[t] == s.timers[t];
        assert ArmedOne(s, later, Some(b), [e] + rest, t);
      } else {
        assert NoneOrQueued(s', t);
      }
    }
  }

  lemma AfterEntryListed(s: State, s': State, b: nat, e: Entry, rest: seq<Entry>, now: int, c: Config)
    requires StillListed(s, b, [e] + rest) && Up(s, b, now, c.tick) && Inv(s', c, None)
    requires e.timer < |s.timers| && Quiet(s, s', Some(e.timer)) && (s.timers[e.timer].bucket.None? ==> s' == s)
    requires !Repeats(s.timers[e.timer]) ==> s'.timers[e.timer].bucket == None
    ensures StillListed(s', b, rest) && Up(s', b, now, c.tick)
  {
    hide NoneOrQueued, WheelsOk, SlotsOk, QueueOk, TimersOk, FiredOk, SpacedOk, Interval, Silent, Lists, TimeToPrecision;
    forall j | 0 <= j < |rest|
      ensures rest[j].timer < |s'.timers| && (s'.timers[rest[j].timer].bucket.Some? ==> Lists(s', b, rest[j].timer))
    {
      assert ([e] + rest)[j + 1] == rest[j];
    }
  }

  lemma AfterEntryPromise(s0: State, s: State, s': State, later: seq<nat>, b: nat, e: Entry, rest: seq<Entry>, now: int, tick: int)
    requires Promise(s0, s, later, Some(b), [e] + rest, now, tick) && |s0.fired| <= |s.fired|
    requires e.timer < |s.timers| && Quiet(s, s', Some(e.timer))
    requires s.timers[e.timer].bucket.Some? ==> |s'.fired| > |s.fired| && s'.fired[|s.fired|].timer == e.timer
    ensures Promise(s0, s', later, Some(b), rest, now, tick)
  {
    hide NoneOrQueued, Due, Lists;
    if s.timers[e.timer].bucket.Some? {
      assert s'.fired[|s.fired|].timer == e.timer;
      assert RanSince(|s0.fired|, s'.fired, e.timer);
    }
    forall t | 0 <= t < |s0.timers| && Due(s0, t, now, tick) && !Settled(s0, s', t)
      ensures s0.timers[t].bucket.Some? && Waiting(s0, s', later, Some(b), rest, t)
    {
      DueArmed(s0, t, now, tick);
      if Settled(s0, s, t) {
        SettledStays(s0, s, s', t);
        assert false;
      }
      assert Waiting(s0, s, later, Some(b), [e] + rest, t);
      if j :| 0 <= j < |[e] + rest| && ([e] + rest)[j].timer == t {
        assert rest[j - 1].timer == t;
      }
    }
  }

  lemma CloseBucket(s0: State, s: State, b: nat, later: seq<nat>, now: int, tick: int)
    requires Armed(s, later, Some(b), []) && Promise(s0, s, later, Some(b), [], now, tick)
    ensures Armed(s, later, None, []) && Promise(s0, s, later, None, [], now, tick)
  {
    hide Due, Settled, Lists;
    forall t | 0 <= t < |s.timers| && s.timers[t].bucket.Some?
      ensures ArmedOne(s, later, None, [], t)
    {
      assert ArmedOne(s, later, Some(b), [], t);
    }
    forall t | 0 <= t < |s0.timers| && Due(s0, t, now, tick) && !Settled(s0, s, t)
      ensures s0.timers[t].bucket.Some? && Waiting(s0, s, later, None, [], t)
    {
      DueArmed(s0, t, now, tick);
      assert Waiting(s0, s, later, Some(b), [], t);
    }
  }

  /** The outcome of a tick so far: idle timers stayed idle, callbacks ran at `now` only, and
      every timer that was due ran or was cancelled. */
  ghost predicate Ticked(s0: State, s: State, now: int, tick: int) {
    && Later(s0, s, tick)
    && (forall i :: |s0.fired| <= i < |s.fired| ==> s.fired[i].now == now)
    && forall t :: 0 <= t < |s0.timers| && Due(s0, t, now, tick) ==> Settled(s0, s, t)
  }

  /** The next wheel of the current one has not started at `now`. */
  ghost predicate NoneStarted(s: State, now: int) {
    s.handler < |s.wheels| && (s.wheels[s.handler].overflow.Some? ==>
      s.wheels[s.handler].overflow.value < |s.wheels| && now < s.wheels[s.wheels[s.handler].overflow.value].start)
  }

  ghost predicate HandlerOk(s: State, c: Config) {
    && Interval(c) > 0 && s.handler < |s.wheels|
    && (s.wheels[s.handler].overflow.Some? ==>
      && s.wheels[s.handler].overflow.value < |s.wheels|
      && s.wheels[s.handler].start + Interval(c) <= s.wheels[s.wheels[s.handler].overflow.value].start)
  }

  lemma HandlerNext(s: State, c: Config)
    requires Inv(s, c, None)
    ensures HandlerOk(s, c)
  {
    hide SlotsOk, QueueOk, TimersOk, FiredOk, SpacedOk, CancelledOk, Interval;
    assert s.handler in s.chain;
    var pos :| 0 <= pos < |s.chain| && s.chain[pos] == s.handler;
    NextWheel(s, pos, c, None);
  }

  /** Switching to a wheel that starts later but has started lowers the number of switches left. */
  lemma QuotientFalls(now: int, start: int, next: int, interval: int)
    requires interval > 0 && start + interval <= next <= now
    ensures 0 <= (now - next) / interval < (now - start) / interval
  {
    var q := (now - next) / interval;
    assert now - next == interval * q + (now - next) % interval;
    MulMonotone(interval, 0, q);
    assert interval * (q + 1) == interval * q + interval;
    DivAtLeast(now - start, interval, q + 1);
  }

  /** Ran at `now`, or was cancelled since `s0`. */
  ghost predicate OnTime(s0: State, s: State, t: nat, now: int) {
    || (t in s.cancelled && t !in s0.cancelled)
    || exists i :: |s0.fired| <= i < |s.fired| && s.fired[i].timer == t && s.fired[i].now == now
  }

  ghost predicate CalledUp(s0: State, t: nat, now: int, tick: int)
    requires t < |s0.timers|
  {
    s0.timers[t].bucket.Some? && (s0.timers[t].expiration <= now || Due(s0, t, now, tick))
  }

  /** Each armed timer whose time had come ran at `now`, unless it was cancelled since `s0`; so
      did each armed timer that a bucket which had come up listed, be it ahead of its time. */
  ghost predicate DueSettled(s0: State, s: State, now: int, tick: int) {
    forall t :: 0 <= t < |s0.timers| && CalledUp(s0, t, now, tick) ==> OnTime(s0, s, t, now)
  }

  lemma Prompt(s0: State, s: State, now: int, c: Config)
    requires Inv(s0, c, None) && Armed(s0, [], None, []) && Ticked(s0, s, now, c.tick)
    ensures DueSettled(s0, s, now, c.tick)
  {
    hide WheelsOk, SlotsOk, QueueOk, TimersOk, FiredOk, SpacedOk, Interval, Due, Later, Armed;
    forall t | 0 <= t < |s0.timers| && CalledUp(s0, t, now, c.tick)
      ensures OnTime(s0, s, t, now)
    {
      if !Due(s0, t, now, c.tick) {
        TimeIsDue(s0, t, now, c);
      }
    }
  }

  lemma FirstPass(s0: State, s: State, now: int, tick: int)
    requires Progress(s0, s, now, tick) && Promise(s0, s, [], None, [], now, tick)
    ensures Ticked(s0, s, now, tick)
  {
    hide Later, Lists, Due, Settled;
    forall t | 0 <= t < |s0.timers| && Due(s0, t, now, tick)
      ensures Settled(s0, s, t)
    {
      DueArmed(s0, t, now, tick);
    }
  }

  lemma NextPass(s0: State, s: State, s1: State, s2: State, now: int, tick: int)
    requires Ticked(s0, s, now, tick) && s1 == s.(handler := s1.handler) && Progress(s1, s2, now, tick)
    ensures Ticked(s0, s2, now, tick)
  {
    SwitchLater(s, s1, tick);
    LaterTrans(s, s1, s2, tick);
    LaterTrans(s0, s, s2, tick);
    Grown(s, s2, tick);
    hide Later, Lists, Due;
    forall t | 0 <= t < |s0.timers| && Due(s0, t, now, tick)
      ensures Settled(s0, s2, t)
    {
      SettledStays(s0, s, s2, t);
    }
  }

  lemma SwitchLater(s: State, s1: State, tick: int)
    requires s1 == s.(handler := s1.handler)
    ensures Later(s, s1, tick)
  {
    forall b: nat, t: nat
      ensures Lists(s1, b, t) ==> Lists(s, b, t)
    {
    }
    hide Lists;
  }

  lemma Grown(s: State, s': State, tick: int)
    requires Later(s, s', tick)
    ensures s.fired <= s'.fired && Extends(s.cancelled, s'.cancelled)
  {
  }

  // ---------------------------------------------------------------- what it all means

  /** A one-shot timer runs at most once; and whatever runs two ticks or more ahead of time is a
      repeating timer, listed by a bucket it is no longer in. */
  ghost predicate AtMostOnceAndNotEarly(s: State, c: Config) {
    && (forall i, j :: 0 <= i < |s.fired| && 0 <= j < |s.fired| && i != j && s.fired[i].timer == s.fired[j].timer ==>
          s.fired[i].timer < |s.timers| && Repeats(s.timers[s.fired[i].timer]))
    && (forall i :: 0 <= i < |s.fired| && s.fired[i].now <= s.fired[i].expiration - 2 * c.tick ==>
          s.fired[i].timer < |s.timers| && Repeats(s.timers[s.fired[i].timer]) && s.fired[i].listed != s.fired[i].own)
  }

  /** The next run of `t` after `s` came two ticks or more ahead of its time. */
  ghost predicate EarlySince(s: State, s': State, t: nat, tick: int) {
    exists i: nat :: First(|s.fired|, s'.fired, t, i) && s'.fired[i].now <= s'.fired[i].expiration - 2 * tick
  }

  /** A bucket that armed timer `t` has left but that lists it, and comes up two ticks or more
      ahead of the timer's time. */
  ghost predicate Stale(s: State, b: nat, t: nat, tick: int) {
    && t < |s.timers| && s.timers[t].bucket.Some? && s.timers[t].bucket != Some(b) && Lists(s, b, t)
    && Up(s, b, s.timers[t].expiration - 2 * tick, tick)
  }

  /** Whatever happens, only a stale entry makes the next run of a timer come too early. */
  lemma EarlyOnlyIfStale(s: State, s': State, t: nat, c: Config)
    requires Inv(s', c, None) && Later(s, s', c.tick) && t < |s.timers| && EarlySince(s, s', t, c.tick)
    ensures exists b :: Stale(s, b, t, c.tick)
  {
    hide WheelsOk, SlotsOk, QueueOk, TimersOk, CancelledOk, Interval, Respects, TimeToPrecision;
    var i: nat :| First(|s.fired|, s'.fired, t, i) && s'.fired[i].now <= s'.fired[i].expiration - 2 * c.tick;
    assert NextRun(s, s', t, c.tick);
    assert Stale(s, s'.fired[i].listed, t, c.tick);
  }

  /** Of two runs of a timer the later one was due at least its repeat duration, in milliseconds,
      after the earlier one. */
  ghost predicate Apart(s: State) {
    forall i, j :: 0 <= i < j < |s.fired| && s.fired[i].timer == s.fired[j].timer && s.fired[i].timer < |s.timers| ==>
      s.fired[j].expiration >= s.fired[i].expiration + s.timers[s.fired[i].timer].repeatNs / 1_000_000
  }

  lemma HistoryApart(s: State, c: Config)
    requires Inv(s, c, None)
    ensures Apart(s)
  {
    hide WheelsOk, SlotsOk, QueueOk, TimersOk, FiredOk, CancelledOk, Interval;
  }

  /** A cancelled timer has not run since, whenever and by whomever it was cancelled. */
  lemma History(s: State, c: Config)
    requires Inv(s, c, None)
    ensures AtMostOnceAndNotEarly(s, c) && Silent(s.cancelled, s.fired) && Apart(s)
  {
    HistoryApart(s, c);
    hide Apart, SpacedOk, WheelsOk, SlotsOk, QueueOk, TimersOk, Interval;
  }

  /** A timer started at the start of a bucket that lists `u` brings that bucket up again. */
  lemma RefillDue(s: State, s1: State, b: nat, u: nat, c: Config)
    requires Inv(s, c, None) && Inv(s1, c, None) && Stale(s, b, u, c.tick) && Quiet(s, s1, None)
    requires s1.cancelled == s.cancelled && |s1.timers| == |s.timers| + 1
    requires PlacedAt(s1, |s.timers|, s.buckets[b].expiration)
    ensures u < |s1.timers| && s1.timers[u] == s.timers[u] && u !in s.cancelled && Repeats(s.timers[u])
    ensures Due(s1, u, TimeToPrecision(s.buckets[b].expiration, c.tick), c.tick)
  {
    hide WheelsOk, SlotsOk, QueueOk, FiredOk, SpacedOk, Silent, Interval, TimeToPrecision;
    var e :| e in s.buckets[b].entries && e.timer == u;
    assert EntryOk(s.timers, s.elements, b, e);
    var d := s1.timers[|s.timers|].bucket.value;
    assert TimerOk(s1.buckets, s1.timers, |s.timers|, c.tick);
    hide Inv;
    BucketOfStart(s1, d, b, c, None);
    assert Lists(s1, b, u);
  }

  lemma FirstExists(n: nat, fired: seq<Firing>, t: nat) returns (i: nat)
    requires RanSince(n, fired, t)
    ensures First(n, fired, t, i)
  {
    var k :| n <= k < |fired| && fired[k].timer == t;
    i := n;
    while fired[i].timer != t
      invariant n <= i <= k && forall j :: n <= j < i ==> fired[j].timer != t
      decreases k - i
    {
      i := i + 1;
    }
  }

  /** What is due ahead of its time in a tick runs ahead of its time. */
  lemma RunsEarly(s: State, s1: State, s2: State, u: nat, now: int, c: Config)
    requires Later(s, s1, c.tick) && s1.fired == s.fired && Ticked(s1, s2, now, c.tick) && DueSettled(s1, s2, now, c.tick)
    requires u < |s.timers| && u < |s1.timers| && s1.timers[u] == s.timers[u] && Due(s1, u, now, c.tick)
    requires u in s2.cancelled ==> u in s1.cancelled
    requires now <= s.timers[u].expiration - 2 * c.tick
    ensures EarlySince(s, s2, u, c.tick)
  {
    hide Due, Respects, Lists, Up;
    assert CalledUp(s1, u, now, c.tick) by {
      DueArmed(s1, u, now, c.tick);
    }
    assert RanSince(|s1.fired|, s2.fired, u);
    var i := FirstExists(|s1.fired|, s2.fired, u);
    assert NextRun(s1, s2, u, c.tick);
  }

  // ---------------------------------------------------------------- a timer that runs too early

  const FIVE_MS := 5_000_000

  function OneWheel(): State {
    State([Wheel(0, map[], None)], [0], 0, [], [], multiset{}, [], 0, [], map[])
  }

  /** A timer of 5 ms was added at once, and its bucket 0 is queued. */
  function Early1(): State {
    State([Wheel(0, map[0 := 0], None)], [0], 0, [Bucket(0, [Entry(0, 0)], true)], [Owner(0, 0)], multiset{Item(0, 0)},
          [Timer(0, FIVE_MS, Some(0), 0)], 1, [], map[])
  }

  /** Bucket 0 was popped at 0, the timer ran and is in bucket 1 from now on; bucket 0 still
      lists it. */
  function Early2(): State {
    State([Wheel(0, map[0 := 0, 5 := 1], None)], [0], 0,
          [Bucket(0, [Entry(0, 0)], false), Bucket(5, [Entry(0, 1)], true)], [Owner(0, 0), Owner(0, 5)], multiset{Item(1, 5)},
          [Timer(5, FIVE_MS, Some(1), 1)], 2, [Firing(0, 0, 0, 0, 0)], map[])
  }

  /** On wheels with a tick of 1 ms and 20 slots that start at 0, a timer that repeats every 5 ms
      runs at 0; bucket 0, which it has left, lists it still, and its next time is 5. */
  lemma EarlyRun()
    ensures PlaceIn(NewTimer(OneWheel(), 0, FIVE_MS), 0, 0, 0, 1) == Early1()
    ensures var s := RunCallback(DequeueBucket(Early1(), 0, 1), 0, 0, 0);
            NextTime(s, 0) == 5 && PlaceIn(s, 0, 0, 5, 1) == Early2()
    ensures Lists(Early1(), 0, 0) && Up(Early1(), 0, 0, 1) && Stale(Early2(), 0, 0, 1)
  {
    EarlyFirst();
    EarlySecond();
    assert Entry(0, 0) in Early1().buckets[0].entries && Entry(0, 0) in Early2().buckets[0].entries;
  }

  lemma EarlyFirst()
    ensures PlaceIn(NewTimer(OneWheel(), 0, FIVE_MS), 0, 0, 0, 1) == Early1()
  {
    var s := NewTimer(OneWheel(), 0, FIVE_MS);
    var s1 := NewBucket(s, 0, 0, 1);
    assert WithBucket(s, 0, 0, 1) == s1;
    assert s1.wheels == [Wheel(0, map[0 := 0], None)] && s1.buckets == [Bucket(0, [], false)];
    var s2 := PutTimer(s1, 0, 0, 0);
    assert s2.buckets[0].entries == [Entry(0, 0)];
    assert s2.buckets == [Bucket(0, [Entry(0, 0)], false)] && s2.timers == [Timer(0, FIVE_MS, Some(0), 0)];
    assert EnqueueBucket(s2, 0, 1) == Early1();
  }

  lemma EarlySecond()
    ensures var s := RunCallback(DequeueBucket(Early1(), 0, 1), 0, 0, 0);
            NextTime(s, 0) == 5 && PlaceIn(s, 0, 0, 5, 1) == Early2()
  {
    var s := RunCallback(DequeueBucket(Early1(), 0, 1), 0, 0, 0);
    assert s.buckets == [Bucket(0, [Entry(0, 0)], false)] && s.items == multiset{};
    var s1 := NewBucket(s, 0, 5, 1);
    assert WithBucket(s, 0, 5, 1) == s1;
    assert s1.wheels == [Wheel(0, map[0 := 0, 5 := 1], None)];
    assert s1.buckets == [Bucket(0, [Entry(0, 0)], false), Bucket(5, [], false)];
    var s2 := PutTimer(s1, 1, 0, 5);
    assert s2.buckets[1].entries == [Entry(0, 1)];
    assert s2.buckets == [Bucket(0, [Entry(0, 0)], false), Bucket(5, [Entry(0, 1)], false)];
    assert EnqueueBucket(s2, 1, 1) == Early2();
  }

  /** Bucket 0 is the one to pop at 0. */
  lemma EarlyPop(b: Option<nat>)
    ensures !NoneDue(Early1(), 0, 1) && Armed(Early1(), [], None, []) && Soon(Early1(), [], 0, 1)
    ensures b.Some? && b.value < |Early1().buckets| ==> b == Some(0)
  {
    assert Early1().buckets[0].inQueue;
  }
}
