/** The timers and requests of a game server together: ticks run timers, a request's timer makes
    it time out inside the tick, and whatever a callback does happens at its turn. */
module Servers {
  import opened Common
  import opened TimerWheel
  import opened Timers
  import opened Ticks
  import opened Callbacks

  /** What a script leaves behind: timers may be cancelled or new, requests answered or new. */
  ghost predicate Acted(s0: State, t0: Table, s: State, t: Table, ids: iset<nat>) {
    && Quiet(s0, s, None) && s.fired == s0.fired && NewKeys(|s0.timers|, t0, t)
    && Moved(t0, t, ids) && AskedFor(s0.cancelled, s.cancelled, t, ids) && t.orphans <= t.cbMap.Keys
  }

  /** Only new timers have become requests' timers. */
  ghost predicate NewKeys(n: nat, t0: Table, t: Table) {
    forall u :: u in t.keyOf && u !in t0.keyOf ==> u >= n
  }

  lemma ActedTrans(s0: State, t0: Table, s1: State, t1: Table, s2: State, t2: Table, ids: iset<nat>)
    requires Acted(s0, t0, s1, t1, ids) && Acted(s1, t1, s2, t2, ids)
    ensures Acted(s0, t0, s2, t2, ids)
  {
    QuietTrans(s0, s1, s2, None);
    MovedTrans(t0, t1, t2, ids);
    AskedTrans(s0, s1, t1, s2, t2, ids);
    assert |s0.timers| <= |s1.timers|;
    hide Quiet, Moved, AskedFor;
  }

  lemma AskedTrans(s0: State, s1: State, t1: Table, s2: State, t2: Table, ids: iset<nat>)
    requires AskedFor(s0.cancelled, s1.cancelled, t1, ids) && AskedFor(s1.cancelled, s2.cancelled, t2, ids)
    requires Moved(t1, t2, ids)
    ensures AskedFor(s0.cancelled, s2.cancelled, t2, ids)
  {
  }

  lemma ActedSelf(s: State, t: Table, ids: iset<nat>)
    requires t.cbMap.Keys !! Processed(t.outcomes) && t.orphans <= t.cbMap.Keys
    ensures Acted(s, t, s, t, ids)
  {
    QuietSelf(s);
    MovedSelf(t, ids);
  }

  /** A timer was cancelled, with the table following. */
  lemma CancelActed(s0: State, t0: Table, s: State, t: Table, u: nat, ids: iset<nat>)
    requires Quiet(s0, s, None) && s.fired == s0.fired && Moved(t0, t, ids) && t.orphans <= t.cbMap.Keys
    requires forall v :: v in s.cancelled && v !in s0.cancelled ==> v == u
    requires (u + 1 in ids || u in t.keyOf) && t.keyOf == t0.keyOf
    ensures Acted(s0, t0, s, t, ids)
  {
  }

  // -------------------------------------------------------------- what the actions of a script do

  function FirstStartOf(s: State): int {
    if |s.wheels| > 0 then s.wheels[0].start else 0
  }

  /** A new timer, due at `e` but not before the first wheel starts. */
  ghost predicate Started(s: State, s': State, e: int, repeatNs: int) {
    && Quiet(s, s', None) && s'.fired == s.fired && s'.cancelled == s.cancelled
    && |s'.timers| == |s.timers| + 1 && s'.timers[..|s.timers|] == s.timers
    && PlacedAt(s', |s.timers|, Max(e, FirstStartOf(s))) && s'.timers[|s.timers|].repeatNs == Max(repeatNs, 0)
  }

  /** A request under a new key, with its timer. */
  ghost predicate Requested(s: State, t: Table, s': State, t': Table, key: string, clock: int, timeout: int) {
    && key !in t.cbMap && key !in Processed(t.outcomes) && |s'.timers| > 0
    && AddedOnce(s, s', Max(clock + timeout, FirstStartOf(s))) && t' == Registered(t, key, |s'.timers|, Max(clock + timeout, FirstStartOf(s)))
  }

  ghost predicate Did(a: Action, s: State, t: Table, s': State, t': Table)
    decreases a, 1
  {
    match a
    case StartTimer(clock, duration, repeatNs) => t' == t && Started(s, s', clock + duration, repeatNs)
    case CancelTimer(id) =>
      if 0 < id <= |s.timers| then Idled(s, s', id) && t' == Orphaned(t, s.timers, id - 1) else s' == s && t' == t
    case SendRequest(clock, timeout) => exists key :: Requested(s, t, s', t', key, clock, timeout)
    case Answer(key, effect) => Called(key, false, effect, s, t, s', t')
  }

  /** A pending request is taken off, then its callback does `effect`. */
  ghost predicate Called(key: string, timedOut: bool, effect: Script, s: State, t: Table, s': State, t': Table)
    decreases effect, 2
  {
    if key !in t.cbMap || t.cbMap[key] == 0 then s' == s && t' == t
    else exists s1 :: Idled(s, s1, t.cbMap[key]) && Done(effect, |effect.acts|, s1, Taken(t, key, timedOut), s', t')
  }

  /** The first `n` actions of the script, one after the other. */
  ghost predicate Done(script: Script, n: nat, s: State, t: Table, s': State, t': Table)
    requires n <= |script.acts|
    decreases script, 0, n
  {
    if n == 0 then s' == s && t' == t
    else
      var m, a := n - 1, script.acts[n - 1];
      exists s1, t1 :: Done(script, m, s, t, s1, t1) && Did(a, s1, t1, s', t')
  }

  /** The callback of timer `u`: a request's timer makes it time out. */
  ghost predicate CalledBack(u: nat, effect: Script, s: State, t: Table, s': State, t': Table) {
    if u in t.keyOf then Called(t.keyOf[u], true, effect, s, t, s', t') else Done(effect, |effect.acts|, s, t, s', t')
  }

  /** Timer `u` runs: it is noted, its callback does `effect`, and it is re-armed or stopped. */
  ghost predicate Fires(u: nat, listed: nat, now: int, effect: Script, s: State, t: Table, s': State, t': Table)
    requires u < |s.timers| && s.timers[u].bucket.Some?
  {
    exists s2 :: CalledBack(u, effect, RunCallback(s, u, now, listed), t, s2, t') && Rearmed(s2, s', u)
  }

  /** One step of a tick: buckets leave the queue, another wheel becomes the current one, or an
      armed timer that a bucket which has come up lists runs, with the callback of its number. */
  ghost predicate TickStep(now: int, callbacks: nat -> Script, c: Config, s: State, t: Table, s': State, t': Table) {
    || (t' == t && (OnlyFlags(s, s') || s' == s.(handler := s'.handler)))
    || exists u, listed :: Runs(u, listed, now, callbacks, c, s, t, s', t')
  }

  ghost predicate Runs(u: nat, listed: nat, now: int, callbacks: nat -> Script, c: Config, s: State, t: Table, s': State, t': Table) {
    && u < |s.timers| && s.timers[u].bucket.Some? && Lists(s, listed, u) && Up(s, listed, now, c.tick)
    && Fires(u, listed, now, callbacks(|s.fired|), s, t, s', t')
  }

  ghost predicate Steps(n: nat, now: int, callbacks: nat -> Script, c: Config, s: State, t: Table, s': State, t': Table) {
    if n == 0 then s' == s && t' == t
    else
      var m := n - 1;
      exists s1, t1 :: Steps(m, now, callbacks, c, s, t, s1, t1) && TickStep(now, callbacks, c, s1, t1, s', t')
  }

  /** The whole of a tick, or a part of one: such steps, one after the other. */
  ghost predicate Took(now: int, callbacks: nat -> Script, c: Config, s: State, t: Table, s': State, t': Table) {
    exists n: nat :: Steps(n, now, callbacks, c, s, t, s', t')
  }

  lemma TookNone(now: int, callbacks: nat -> Script, c: Config, s: State, t: Table)
    ensures Took(now, callbacks, c, s, t, s, t)
  {
    assert Steps(0, now, callbacks, c, s, t, s, t);
  }

  lemma TookMore(now: int, callbacks: nat -> Script, c: Config, s: State, t: Table, s1: State, t1: Table, s': State, t': Table)
    requires Took(now, callbacks, c, s, t, s1, t1) && TickStep(now, callbacks, c, s1, t1, s', t')
    ensures Took(now, callbacks, c, s, t, s', t')
  {
    hide TickStep;
    var n: nat :| Steps(n, now, callbacks, c, s, t, s1, t1);
    assert Steps(n + 1, now, callbacks, c, s, t, s', t');
  }

  lemma TookTrans(now: int, callbacks: nat -> Script, c: Config, s: State, t: Table, s1: State, t1: Table, s': State, t': Table)
    requires Took(now, callbacks, c, s, t, s1, t1) && Took(now, callbacks, c, s1, t1, s', t')
    ensures Took(now, callbacks, c, s, t, s', t')
  {
    var n: nat :| Steps(n, now, callbacks, c, s1, t1, s', t');
    StepsTrans(n, now, callbacks, c, s, t, s1, t1, s', t');
  }

  lemma {:induction false} StepsTrans(n: nat, now: int, callbacks: nat -> Script, c: Config, s: State, t: Table, s1: State, t1: Table,
                                      s': State, t': Table)
    requires Took(now, callbacks, c, s, t, s1, t1) && Steps(n, now, callbacks, c, s1, t1, s', t')
    ensures Took(now, callbacks, c, s, t, s', t')
  {
    hide Took, TickStep;
    if n > 0 {
      var m := n - 1;
      var s2, t2 :| Steps(m, now, callbacks, c, s1, t1, s2, t2) && TickStep(now, callbacks, c, s2, t2, s', t');
      StepsTrans(m, now, callbacks, c, s, t, s1, t1, s2, t2);
      TookMore(now, callbacks, c, s, t, s2, t2, s', t');
    }
  }

  /** Sending makes one key more the key of a request ever sent, and it is pending. */
  lemma SentIsUsed(clock: int, timeout: int, s: State, t: Table, s': State, t': Table) returns (key: string)
    requires Did(SendRequest(clock, timeout), s, t, s', t') && TimersMatch(t, s.timers)
    ensures key !in t.cbMap && key !in Processed(t.outcomes) && key in t'.cbMap && t'.Used() == t.Used() + {key}
  {
    key :| Requested(s, t, s', t', key, clock, timeout);
    hide TimersMatch, Quiet, Processed;
    var u := |s'.timers| - 1;
    if u in t.keyOf {
      OneShot(t, s.timers, u);
    }
    forall k
      ensures k in t'.Used() <==> k in t.Used() + {key}
    {
      if k in t.Used() {
        var v :| v in t.keyOf && t.keyOf[v] == k;
        assert v in t'.keyOf && t'.keyOf[v] == k;
      }
      assert u in t'.keyOf && t'.keyOf[u] == key;
    }
  }

  lemma DoneNone(script: Script, s: State, t: Table)
    ensures Done(script, 0, s, t, s, t)
  {
  }

  lemma DoneNext(script: Script, n: nat, s: State, t: Table, s1: State, t1: Table, s': State, t': Table)
    requires n < |script.acts| && Done(script, n, s, t, s1, t1) && Did(script.acts[n], s1, t1, s', t')
    ensures Done(script, n + 1, s, t, s', t')
  {
    hide Did;
  }

  lemma CalledIs(key: string, timedOut: bool, effect: Script, s: State, t: Table, s1: State, s': State, t': Table)
    requires key in t.cbMap && t.cbMap[key] > 0 && Idled(s, s1, t.cbMap[key])
    requires Done(effect, |effect.acts|, s1, Taken(t, key, timedOut), s', t')
    ensures Called(key, timedOut, effect, s, t, s', t')
  {
    hide Done, Idled;
  }

  class Server {
    const timers: TimerManager
    const serverId: nat
    const tag: nat
    var cbMap: map<string, nat>
    var uniqueID: nat
    var keyOf: map<nat, string>
    var outcomes: seq<Outcome>
    ghost var orphans: set<string>
    ghost var deadlines: map<nat, int>

    constructor (tm: TimerManager, id: nat, t: nat)
      requires tm.Ready()
      ensures Ready() && timers == tm && T() == Table(map[], map[], [], {}, map[])
    {
      timers, serverId, tag := tm, id, t;
      cbMap, uniqueID, keyOf, outcomes, orphans, deadlines := map[], 0, map[], [], {}, map[];
    }

    ghost function T(): Table
      reads this
    {
      Table(cbMap, keyOf, outcomes, orphans, deadlines)
    }

    ghost predicate Keys()
      reads this
    {
      KeysOk(T(), serverId, tag, uniqueID)
    }

    ghost predicate Valid(running: Option<nat>)
      reads this, timers, timers.queue
    {
      && timers.Valid(running) && timers.MapOk() && Keys()
      && TimersMatch(T(), timers.timers) && OutcomesOk(outcomes, timers.fired)
    }

    /** Idle between scripts and ticks. */
    ghost predicate Ready()
      reads this, timers, timers.queue
    {
      Valid(None) && Armed(timers.S(), [], None, [])
    }

    // -------------------------------------------------------------- requests

    method NextUniqueID() returns (key: string)
      requires Keys()
      modifies this`uniqueID
      ensures Keys() && T() == old(T())
      ensures uniqueID == old(uniqueID) + 1 && key == Decimal(serverId) + "_" + Decimal(tag) + "_" + Decimal(uniqueID)
      ensures key !in cbMap && key !in Processed(outcomes) && Counted(key, serverId, tag, uniqueID)
    {
      NextIsNew(serverId, tag, uniqueID);
      uniqueID := uniqueID + 1;
      key := Key(serverId, tag, uniqueID);
    }

    /** The key has to be one that was never used. */
    method SetCallbackWithTimeout(key: string, clock: int, timeout: int, ghost running: Option<nat>, ghost ids: iset<nat>)
      requires Valid(running) && Counted(key, serverId, tag, uniqueID) && key !in cbMap && key !in Processed(outcomes)
      modifies this, timers, timers.queue
      ensures Valid(running) && Acted(old(timers.S()), old(T()), timers.S(), T(), ids)
      ensures Requested(old(timers.S()), old(T()), timers.S(), T(), key, clock, timeout)
      ensures cbMap == old(cbMap)[key := |timers.timers|] && |timers.timers| == old(|timers.timers|) + 1
      ensures
        var x, start := timers.timers[|timers.timers| - 1], old(timers.FirstStart());
        x.bucket.Some? && x.repeatNs == 0 && x.expiration == if clock + timeout < start then start else clock + timeout
    {
      hide TimerManager.Valid, TimerManager.MapOk, Inv, Counted, Acted, OutcomesOk, PlacedAt, KeysOk, TimersMatch, AddedOnce, Processed;
      ghost var t, s := T(), timers.S();
      KeysParts(t, s, serverId, tag, uniqueID);
      var id := timers.After(clock, timeout, running);
      AddedParts(s, timers.S(), Max(clock + timeout, old(timers.FirstStart())));
      Sent(s, t, timers.S(), key, Max(clock + timeout, old(timers.FirstStart())), ids);
      RegisterKeys(t, key, id, Max(clock + timeout, old(timers.FirstStart())), serverId, tag, uniqueID);
      cbMap := cbMap[key := id];
      keyOf := keyOf[id - 1 := key];
      deadlines := deadlines[id - 1 := Max(clock + timeout, old(timers.FirstStart()))];
    }

    /** Somebody cancels a timer by its id, be it a request's. */
    method CancelById(id: nat, ghost running: Option<nat>, ghost ids: iset<nat>)
      requires Valid(running) && id in ids
      modifies this, timers
      ensures Valid(running) && Acted(old(timers.S()), old(T()), timers.S(), T(), ids)
      ensures Did(CancelTimer(id), old(timers.S()), old(T()), timers.S(), T())
    {
      hide TimerManager.Valid, TimerManager.MapOk, Inv, Acted, OutcomesOk, KeysOk, TimersMatch, Idled, Orphaned;
      ghost var t, s := T(), timers.S();
      KeysParts(t, timers.S(), serverId, tag, uniqueID);
      if 0 < id <= |timers.timers| {
        timers.CancelTimer(id, running);
        orphans := Orphaned(t, s.timers, id - 1).orphans;
        OrphanActed(s, t, timers.S(), id, serverId, tag, uniqueID, ids);
      } else {
        ActedSelf(s, t, ids);
        timers.Cancel(id, running);
      }
    }

    /** Cancels the request's timer and forgets the request. */
    method RemoveCallback(key: string, ghost running: Option<nat>)
      requires timers.Valid(running) && timers.MapOk() && (key in cbMap ==> 0 < cbMap[key] <= |timers.timers|)
      modifies this, timers
      ensures timers.Valid(running) && timers.MapOk() && T() == old(T()).(cbMap := old(cbMap) - {key}) && uniqueID == old(uniqueID)
      ensures key !in old(cbMap) ==> timers.S() == old(timers.S())
      ensures key in old(cbMap) ==> Idled(old(timers.S()), timers.S(), old(cbMap[key]))
    {
      hide Inv, Idled;
      if key in cbMap {
        timers.CancelTimer(cbMap[key], running);
        cbMap := cbMap - {key};
      }
    }

    /** The request is over: its timer is cancelled, twice, and it leaves the table. */
    method TakeOff(key: string, timedOut: bool, ghost running: Option<nat>, ghost ids: iset<nat>)
      requires Valid(running) && key in cbMap && cbMap[key] > 0
      requires timedOut ==> RanSince(0, timers.fired, cbMap[key] - 1)
      modifies this, timers
      ensures Valid(running) && T() == Taken(old(T()), key, timedOut)
      ensures Acted(old(timers.S()), old(T()), timers.S(), T(), ids)
      ensures 0 < old(cbMap[key]) <= |timers.timers| && timers.timers[old(cbMap[key]) - 1].bucket == None
      ensures Idled(old(timers.S()), timers.S(), old(cbMap[key]))
    {
      hide Inv, Acted, OutcomesOk, KeysOk, TimersMatch, Idled, RanSince, Taken, TimerManager.MapOk, TimerManager.Valid;
      ghost var t, s := T(), timers.S();
      PendingParts(t, timers.timers, key);
      TakenKeys(t, key, timedOut, serverId, tag, uniqueID, ids);
      TakenOutcomes(t, key, timedOut, s.fired);
      TakenIs(t, key, timedOut);
      var id := cbMap[key];
      timers.CancelTimer(id, running);
      ghost var s1 := timers.S();
      IdledParts(s, s1, id);
      RemoveCallback(key, running);
      orphans := orphans - {key};
      outcomes := outcomes + [Outcome(key, timedOut, id - 1)];
      IdledTwice(s, s1, timers.S(), id);
      TakenActed(s, t, timers.S(), key, timedOut, ids);
    }

    /** An answer or a timeout: processes the callback, which does `effect`, if the request is
        still pending. */
    method Call(key: string, timedOut: bool, effect: Script, ghost running: Option<nat>, ghost ids: iset<nat>)
      requires Valid(running) && Within(effect, ids)
      requires timedOut && key in cbMap ==> cbMap[key] > 0 && RanSince(0, timers.fired, cbMap[key] - 1)
      modifies this, timers, timers.queue
      ensures Valid(running) && Acted(old(timers.S()), old(T()), timers.S(), T(), ids)
      ensures key !in cbMap && Called(key, timedOut, effect, old(timers.S()), old(T()), timers.S(), T())
      ensures key !in old(cbMap) ==> timers.S() == old(timers.S()) && T() == old(T())
      ensures key in old(cbMap) ==>
                && 0 < old(cbMap[key]) <= |timers.timers| && timers.timers[old(cbMap[key]) - 1].bucket == None
                && |old(outcomes)| < |outcomes|
                && outcomes[|old(outcomes)|] == Outcome(key, timedOut, old(cbMap[key]) - 1)
      decreases effect, 2
    {
      hide TimerManager.Valid, TimerManager.MapOk, Inv, Acted, OutcomesOk, KeysOk, TimersMatch, RanSince, Idled, Done;
      ghost var t, s := T(), timers.S();
      KeysParts(t, s, serverId, tag, uniqueID);
      ActedSelf(s, t, ids);
      if key in cbMap {
        PendingParts(t, timers.timers, key);
        ghost var u := cbMap[key] - 1;
        TakeOff(key, timedOut, running, ids);
        ghost var t1, s1 := T(), timers.S();
        RunScript(effect, running, ids);
        CalledIs(key, timedOut, effect, s, t, s1, timers.S(), T());
        ActedTrans(s, t, s1, t1, timers.S(), T(), ids);
        StaysIdle(s1, t1, timers.S(), T(), u, ids);
        ActedMoved(s1, t1, timers.S(), T(), ids);
        StaysProcessed(t, t1, T(), key, timedOut, serverId, tag, uniqueID, ids);
      }
    }

    method Act(a: Action, ghost running: Option<nat>, ghost ids: iset<nat>)
      requires Valid(running) && ActWithin(a, ids)
      modifies this, timers, timers.queue
      ensures Did(a, old(timers.S()), old(T()), timers.S(), T())
      ensures Valid(running) && Acted(old(timers.S()), old(T()), timers.S(), T(), ids)
      decreases a, 1
    {
      hide Inv, Acted, OutcomesOk, KeysOk, TimersMatch, AddedOnce, Started, Requested, Called, Idled, Orphaned, TimerManager.Valid, TimerManager.MapOk;
      ghost var t, s := T(), timers.S();
      KeysParts(t, s, serverId, tag, uniqueID);
      match a {
        case StartTimer(clock, duration, repeatNs) =>
          StartAny(clock, duration, repeatNs, running, ids);
        case CancelTimer(id) =>
          CancelById(id, running, ids);
        case SendRequest(clock, timeout) =>
          var key := NextUniqueID();
          SetCallbackWithTimeout(key, clock, timeout, running, ids);
        case Answer(key, effect) =>
          Call(key, false, effect, running, ids);
      }
    }

    /** A timer that is no request's. */
    method StartAny(clock: int, duration: int, repeatNs: int, ghost running: Option<nat>, ghost ids: iset<nat>)
      requires Valid(running)
      modifies timers, timers.queue
      ensures Valid(running) && Acted(old(timers.S()), T(), timers.S(), T(), ids)
      ensures Started(old(timers.S()), timers.S(), clock + duration, repeatNs)
    {
      hide Inv, Quiet, Respects, Acted, OutcomesOk, KeysOk, TimersMatch, PlacedAt, PlaceIn, NoneLost;
      ghost var t, s := T(), timers.S();
      KeysParts(t, s, serverId, tag, uniqueID);
      var id := timers.AddTimer(clock, duration, repeatNs, running);
      StartedActed(s, t, timers.S(), ids);
      PlacedParts(timers.S(), id - 1, Max(clock + duration, FirstStartOf(s)));
      NoneLostStays(s, timers.S());
    }

    method RunScript(script: Script, ghost running: Option<nat>, ghost ids: iset<nat>)
      requires Valid(running) && Within(script, ids)
      modifies this, timers, timers.queue
      ensures Valid(running) && Acted(old(timers.S()), old(T()), timers.S(), T(), ids)
      ensures Done(script, |script.acts|, old(timers.S()), old(T()), timers.S(), T())
      ensures script.acts == [] ==> timers.S() == old(timers.S()) && T() == old(T())
      decreases script, 0
    {
      hide TimerManager.Valid, TimerManager.MapOk, Inv, Acted, OutcomesOk, KeysOk, TimersMatch, Did, Done;
      ghost var t, s := T(), timers.S();
      KeysParts(t, s, serverId, tag, uniqueID);
      DoneNone(script, s, t);
      ActedSelf(s, t, ids);
      for i := 0 to |script.acts|
        invariant Valid(running) && Acted(s, t, timers.S(), T(), ids)
        invariant Done(script, i, s, t, timers.S(), T())
        invariant i == 0 ==> timers.S() == s && T() == t
      {
        ghost var t1, s1 := T(), timers.S();
        Act(script.acts[i], running, ids);
        DoneNext(script, i, s, t, s1, t1, timers.S(), T());
        ActedTrans(s, t, s1, t1, timers.S(), T(), ids);
      }
    }

    // -------------------------------------------------------------- ticks

    /** The callback of timer `u` runs: of a request's timer, that the request has timed out. */
    method RunCallbackOf(u: nat, effect: Script, ghost ids: iset<nat>)
      requires Valid(Some(u)) && Within(effect, ids) && RanSince(0, timers.fired, u)
      requires u < |timers.timers| && timers.timers[u].bucket.Some?
      modifies this, timers, timers.queue
      ensures Valid(Some(u)) && Acted(old(timers.S()), old(T()), timers.S(), T(), ids)
      ensures u < |timers.timers| && (u in old(keyOf) ==> timers.timers[u].bucket == None)
      ensures (u in keyOf <==> u in old(keyOf)) && timers.fired == old(timers.fired)
      ensures CalledBack(u, effect, old(timers.S()), old(T()), timers.S(), T())
      ensures effect.acts == [] && u !in old(keyOf) ==> timers.S() == old(timers.S()) && T() == old(T())
    {
      hide TimerManager.Valid, TimerManager.MapOk, Inv, Acted, OutcomesOk, KeysOk, TimersMatch, RanSince, Called, Done;
      ghost var t, s := T(), timers.S();
      if u in keyOf {
        OwnerPending(t, timers.timers, u);
        Call(keyOf[u], true, effect, Some(u), ids);
      } else {
        RunScript(effect, Some(u), ids);
      }
      KeyOfOld(s, t, timers.S(), T(), u, ids);
    }

    /** The callback of an armed timer and what follows it. */
    method FireTimer(u: nat, listed: nat, now: int, effect: Script, ghost ids: iset<nat>)
      requires Valid(None) && u < |timers.timers| && timers.timers[u].bucket.Some? && Within(effect, ids)
      requires Lists(timers.S(), listed, u) && Up(timers.S(), listed, now, timers.config.tick)
      modifies this, timers, timers.queue
      ensures Valid(None) && Visited(old(timers.S()), old(T()), timers.S(), T(), u, listed, now, timers.config.tick, ids)
      ensures Fires(u, listed, now, effect, old(timers.S()), old(T()), timers.S(), T())
      ensures
        var s1 := RunCallback(old(timers.S()), u, now, listed);
        Plain(s1, u, timers.config) && effect.acts == [] && u !in old(keyOf) ==>
          T() == old(T()) && timers.S() == PlaceIn(s1, s1.handler, u, NextTime(s1, u), timers.config.tick)
    {
      hide TimerManager.Valid, TimerManager.MapOk, Inv, Acted, OutcomesOk, KeysOk, TimersMatch, RanSince, Quiet, Visited,
           Rearmed, PlaceIn, NextTime, HandlerStart, CalledBack, Lists, Up;
      ghost var t, s := T(), timers.S();
      HandlerExists(timers, None);
      timers.Run(u, now, listed);
      ghost var s1 := timers.S();
      RanNow(s, u, now, listed);
      MoreFired(outcomes, s.fired, s1.fired);
      RunCallbackOf(u, effect, ids);
      ghost var s2, t2 := timers.S(), T();
      timers.RearmOrStop(u);
      Aftermath(s, t, s2, t2, timers.S(), u, now, listed, timers.config.tick, ids);
    }

    /** A snapshot entry's turn: runs the callback unless the timer is idle, then re-arms a
        repeating timer that was not cancelled, and stops any other. */
    method OnTimeout(u: nat, listed: nat, now: int, callbacks: nat -> Script, ghost ids: iset<nat>)
      requires Valid(None) && u < |timers.timers| && forall n :: Within(callbacks(n), ids)
      requires timers.timers[u].bucket.Some? ==> Lists(timers.S(), listed, u)
      requires Up(timers.S(), listed, now, timers.config.tick)
      modifies this, timers, timers.queue
      ensures Valid(None)
      ensures old(timers.timers[u].bucket).None? ==> timers.S() == old(timers.S()) && T() == old(T())
      ensures old(timers.timers[u].bucket).Some? ==>
                && Visited(old(timers.S()), old(T()), timers.S(), T(), u, listed, now, timers.config.tick, ids)
                && Fires(u, listed, now, callbacks(|old(timers.fired)|), old(timers.S()), old(T()), timers.S(), T())
    {
      hide TimerManager.Valid, TimerManager.MapOk, Inv, OutcomesOk, KeysOk, TimersMatch, Visited, Fires;
      if timers.timers[u].bucket.None? {
        return;
      }
      FireTimer(u, listed, now, callbacks(|timers.fired|), ids);
    }

    /** Runs the timers listed in bucket `b`, as they are listed now. `s0` and `t0` are the state
        and table at the start of the tick, `later` the buckets still to come. */
    method RunBucket(b: nat, now: int, callbacks: nat -> Script, ghost later: seq<nat>, ghost s0: State, ghost t0: Table, ghost ids: iset<nat>)
      requires Valid(None) && forall n :: Within(callbacks(n), ids)
      requires Between(Turn(now, callbacks, timers.config, ids), s0, t0, timers.S(), T(), [b] + later)
      modifies this, timers, timers.queue
      ensures Valid(None) && Between(Turn(now, callbacks, timers.config, ids), s0, t0, timers.S(), T(), later)
    {
      hide TimerManager.Valid, TimerManager.MapOk, Inv, Between, Within, Amid, Visited, Fires, Lists, Up, OutcomesOk, KeysOk, TimersMatch;
      ghost var k := Turn(now, callbacks, timers.config, ids);
      TimersInv(timers, None);
      Opened(k, s0, t0, timers.S(), T(), b, later);
      var snapshot := timers.buckets[b].entries;
      assert snapshot[0..] == snapshot;
      for j := 0 to |snapshot|
        invariant Valid(None) && Amid(k, s0, t0, timers.S(), T(), later, b, snapshot[j..])
      {
        ghost var s, t := timers.S(), T();
        assert snapshot[j..] == [snapshot[j]] + snapshot[j + 1..];
        NextVisit(k, s0, t0, s, t, later, b, snapshot[j], snapshot[j + 1..]);
        OnTimeout(snapshot[j].timer, b, now, callbacks, ids);
        TimersInv(timers, None);
        AfterVisit(k, s0, t0, s, t, timers.S(), T(), later, b, snapshot[j], snapshot[j + 1..]);
      }
      assert snapshot[|snapshot|..] == [];
      Closed(k, s0, t0, timers.S(), T(), b, later);
    }

    /** Runs everything whose bucket has come up. */
    method OnTimeOut(now: int, callbacks: nat -> Script, ghost ids: iset<nat>)
      requires Ready() && forall n :: Within(callbacks(n), ids)
      modifies this, timers, timers.queue
      ensures Ready() && Between(Turn(now, callbacks, timers.config, ids), old(timers.S()), old(T()), timers.S(), T(), [])
    {
      hide TimerManager.Valid, TimerManager.MapOk, Inv, Armed, Soon, NoneDue, Gone, OutcomesOk, KeysOk, TimersMatch, Within, Between;
      ghost var s0, t0, k := timers.S(), T(), Turn(now, callbacks, timers.config, ids);
      KeysParts(t0, s0, serverId, tag, uniqueID);
      var expired := timers.GetExpiredAndShift(now);
      TurnStarts(k, s0, timers.S(), T(), expired);
      hide OnlyFlags;
      assert expired[0..] == expired;
      for i := 0 to |expired|
        invariant Valid(None) && Between(k, s0, t0, timers.S(), T(), expired[i..])
      {
        assert expired[i..] == [expired[i]] + expired[i + 1..];
        RunBucket(expired[i], now, callbacks, expired[i + 1..], s0, t0, ids);
      }
      assert expired[|expired|..] == [];
      BetweenArmed(k, s0, t0, timers.S(), T());
    }

    /** A tick: what is due runs, then each later wheel that has started becomes the current one,
        and what is due by then runs too. */
    method HandleMainTick(now: int, callbacks: nat -> Script, ghost ids: iset<nat>)
      requires Ready() && forall n :: Within(callbacks(n), ids)
      modifies this, timers, timers.queue
      ensures Ready() && NoneStarted(timers.S(), now) && NoneLost(timers.S())
      ensures Turned(Turn(now, callbacks, timers.config, ids), old(timers.S()), old(T()), timers.S(), T())
      ensures DueSettled(old(timers.S()), timers.S(), now, timers.config.tick)
      ensures RequestsPrompt(old(T()), T(), now) && forall key :: key in T().Used() ==> OncePlaced(key, T())
    {
      hide Ready, Inv, Turned, DueSettled, TimersMatch, KeysOk, Within, RequestsPrompt, Interval, NoneLost, Armed, OncePlaced;
      ghost var s0, t0, k := timers.S(), T(), Turn(now, callbacks, timers.config, ids);
      ReadyParts(this);
      var c := timers.config;
      FirstRuns(now, callbacks, ids);
      var expired := now >= timers.wheels[timers.handler].start + Interval(c);
      while expired
        invariant Ready() && Turned(k, s0, t0, timers.S(), T()) && HandlerOk(timers.S(), c)
        invariant if expired then now >= timers.wheels[timers.handler].start
                  else now < timers.wheels[timers.handler].start + Interval(c)
        decreases (now - timers.wheels[timers.handler].start) / Interval(c)
      {
        if timers.wheels[timers.handler].overflow.None? {
          break;
        }
        var v := timers.wheels[timers.handler].overflow.value;
        if now >= timers.wheels[v].start {
          QuotientFalls(now, timers.wheels[timers.handler].start, timers.wheels[v].start, Interval(c));
          NextWheelRuns(v, now, callbacks, s0, t0, ids);
        } else {
          break;
        }
      }
      ReadyParts(this);
      AfterTick(k, s0, t0, timers.S(), T(), serverId, tag, uniqueID);
      Placed(T(), serverId, tag, uniqueID);
    }

    /** What is due on the current wheel runs. */
    method FirstRuns(now: int, callbacks: nat -> Script, ghost ids: iset<nat>)
      requires Ready() && forall n :: Within(callbacks(n), ids)
      modifies this, timers, timers.queue
      ensures Ready() && Turned(Turn(now, callbacks, timers.config, ids), old(timers.S()), old(T()), timers.S(), T())
      ensures HandlerOk(timers.S(), timers.config)
    {
      hide Ready, Inv, Between, Turned, Within, Armed;
      ghost var s0, t0 := timers.S(), T();
      OnTimeOut(now, callbacks, ids);
      FirstTurn(Turn(now, callbacks, timers.config, ids), s0, t0, timers.S(), T());
      ReadyParts(this);
      HandlerNext(timers.S(), timers.config);
    }

    /** The next wheel becomes the current one. */
    method NextWheelRuns(v: nat, now: int, callbacks: nat -> Script, ghost s0: State, ghost t0: Table, ghost ids: iset<nat>)
      requires Ready() && v < |timers.wheels| && forall n :: Within(callbacks(n), ids)
      requires Turned(Turn(now, callbacks, timers.config, ids), s0, t0, timers.S(), T())
      modifies this, timers, timers.queue
      ensures Ready() && Turned(Turn(now, callbacks, timers.config, ids), s0, t0, timers.S(), T())
      ensures timers.handler == v < |timers.wheels| && timers.wheels[v].start == old(timers.wheels[v].start)
      ensures HandlerOk(timers.S(), timers.config)
    {
      hide TimerManager.Valid, TimerManager.MapOk, Inv, Armed, OutcomesOk, KeysOk, TimersMatch, Within, Between, Turned;
      ghost var s, t := timers.S(), T();
      timers.SwitchTo(v);
      ghost var s1 := timers.S();
      OnTimeOut(now, callbacks, ids);
      NextTurn(Turn(now, callbacks, timers.config, ids), s0, t0, s, t, s1, timers.S(), T());
      TimersInv(timers, None);
      HandlerNext(timers.S(), timers.config);
    }

    /** Any run: scripts and ticks, whatever the scripts and callbacks do. The timers they cancel
        by id are among `ids`, which may be all ids there are. */
    method Drive(ops: seq<Op>, ghost ids: iset<nat>)
      requires Ready() && forall i :: 0 <= i < |ops| ==> OpWithin(ops[i], ids)
      modifies this, timers, timers.queue
      ensures Ready() && RunOf(ops, |ops|, timers.config, old(timers.S()), old(T()), timers.S(), T())
      ensures Later(old(timers.S()), timers.S(), timers.config.tick) && Tracked(old(timers.S()), old(T()), timers.S(), T(), ids)
      ensures AtMostOnceAndNotEarly(timers.S(), timers.config) && Apart(timers.S())
      ensures Silent(timers.cancelled, timers.fired) && NoneLost(timers.S())
      ensures forall u :: 0 <= u < |old(timers.timers)| && EarlySince(old(timers.S()), timers.S(), u, timers.config.tick) ==>
                exists b :: Stale(old(timers.S()), b, u, timers.config.tick)
      ensures forall key :: key in T().Used() ==> OncePlaced(key, T())
    {
      hide Ready, Inv, Armed, Later, Tracked, OutcomesOk, KeysOk, TimersMatch, OncePlaced, RunOf, Ran, EarlySince, Stale, NoneLost,
           Silent, AtMostOnceAndNotEarly, Apart;
      ghost var s0, t0, c := timers.S(), T(), timers.config;
      LaterSelf(s0, c.tick);
      ReadyParts(this);
      KeysParts(t0, s0, serverId, tag, uniqueID);
      TrackedSelf(s0, t0, ids);
      RunNone(ops, c, s0, t0);
      for i := 0 to |ops|
        invariant Ready() && Later(s0, timers.S(), c.tick) && Tracked(s0, t0, timers.S(), T(), ids)
        invariant RunOf(ops, i, c, s0, t0, timers.S(), T())
      {
        ghost var s, t := timers.S(), T();
        Step(ops[i], ids);
        RunNext(ops, i, c, s0, t0, s, t, timers.S(), T());
        LaterTrans(s0, s, timers.S(), c.tick);
        TrackedTrans(s0, t0, s, t, timers.S(), T(), ids);
      }
      ReadyParts(this);
      History(timers.S(), c);
      OnlyStale(s0, timers.S(), c);
      Placed(T(), serverId, tag, uniqueID);
    }

    /** A bucket that timer `u` has left but that lists it and comes up early: starting a timer
        at that bucket's time makes the next tick run `u` too early. */
    method MakeEarly(u: nat, b: nat) returns (ops: seq<Op>)
      requires Ready() && Stale(timers.S(), b, u, timers.config.tick)
      modifies this, timers, timers.queue
      ensures Ready() && RunOf(ops, |ops|, timers.config, old(timers.S()), old(T()), timers.S(), T())
      ensures EarlySince(old(timers.S()), timers.S(), u, timers.config.tick)
    {
      hide Ready, Inv, Armed, Stale, TimersMatch, KeysOk, Acted, Turned, DueSettled, RequestsPrompt, EarlySince, NoneLost, NoneStarted,
           TimeToPrecision, RunOf, Ran, Done;
      ghost var s, t, c := timers.S(), T(), timers.config;
      ReadyParts(this);
      StaleParts(s, b, u, c.tick);
      var e := timers.buckets[b].expiration;
      var script, now := Script([StartTimer(e, 0, 0)]), TimeToPrecision(e, timers.config.tick);
      ops := [Do(script), Tick(now, n => Script([]))];
      StartNow(script);
      ghost var s1, t1 := timers.S(), T();
      ReadyParts(this);
      HandleMainTick(now, n => Script([]), iset{});
      ReadyParts(this);
      ghost var k := Turn(now, n => Script([]), c, iset{});
      RunTwo(script, k, s, t, s1, t1, timers.S(), T());
      RanEarly(k, s, t, s1, t1, timers.S(), T(), u, b);
    }

    /** A script that cancels nothing, from outside. */
    method StartNow(script: Script)
      requires Ready() && Within(script, iset{})
      modifies this, timers, timers.queue
      ensures Ready() && Acted(old(timers.S()), old(T()), timers.S(), T(), iset{})
      ensures Done(script, |script.acts|, old(timers.S()), old(T()), timers.S(), T())
    {
      hide TimerManager.Valid, TimerManager.MapOk, Inv, Armed, OutcomesOk, KeysOk, TimersMatch, Acted, Done;
      ghost var s, t := timers.S(), T();
      RunScript(script, None, iset{});
      ActedParts(s, t, timers.S(), T(), timers.config.tick, iset{});
    }

    /** One step of a run. */
    method Step(op: Op, ghost ids: iset<nat>)
      requires Ready() && OpWithin(op, ids)
      modifies this, timers, timers.queue
      ensures Ready() && Ran(op, timers.config, old(timers.S()), old(T()), timers.S(), T())
      ensures Later(old(timers.S()), timers.S(), timers.config.tick) && Tracked(old(timers.S()), old(T()), timers.S(), T(), ids)
    {
      hide TimerManager.Valid, TimerManager.MapOk, Inv, Armed, Later, Turned, DueSettled, Tracked, OutcomesOk, KeysOk, TimersMatch,
           Acted, Within, Done, Took, RequestsPrompt, NoneLost, NoneStarted;
      ghost var s, t := timers.S(), T();
      match op {
        case Do(script) =>
          RunScript(script, None, ids);
          ActedParts(s, t, timers.S(), T(), timers.config.tick, ids);
        case Tick(now, callbacks) =>
          HandleMainTick(now, callbacks, ids);
          TurnedParts(Turn(now, callbacks, timers.config, ids), s, t, timers.S(), T());
      }
    }
  }

  /** A step of a run: a script from outside, or a tick, in which the n-th callback ever run does
      `callbacks(n)`. */
  datatype Op = Do(script: Script) | Tick(now: int, callbacks: nat -> Script)

  ghost predicate OpWithin(op: Op, ids: iset<nat>) {
    match op
    case Do(script) => Within(script, ids)
    case Tick(_, callbacks) => forall n :: Within(callbacks(n), ids)
  }

  lemma DoneOne(a: Action, s: State, t: Table, s': State, t': Table)
    requires Done(Script([a]), 1, s, t, s', t')
    ensures Did(a, s, t, s', t')
  {
    hide Did;
    var script := Script([a]);
    var s1, t1 :| Done(script, 0, s, t, s1, t1) && Did(script.acts[0], s1, t1, s', t');
  }

  lemma OnlyStarted(s: State, t: Table, s': State, t': Table, clock: int, duration: int, repeatNs: int)
    requires Did(StartTimer(clock, duration, repeatNs), s, t, s', t')
    ensures t' == t && Started(s, s', clock + duration, repeatNs)
  {
  }

  /** A script and a tick after it. */
  lemma RunTwo(script: Script, k: Turn, s: State, t: Table, s1: State, t1: Table, s2: State, t2: Table)
    requires Done(script, |script.acts|, s, t, s1, t1) && Turned(k, s1, t1, s2, t2)
    ensures RunOf([Do(script), Tick(k.now, k.callbacks)], 2, k.c, s, t, s2, t2)
  {
    hide Done, Took, Ticked, Tracked;
    var ops := [Do(script), Tick(k.now, k.callbacks)];
    RunNone(ops, k.c, s, t);
    RunNext(ops, 0, k.c, s, t, s, t, s1, t1);
    RunNext(ops, 1, k.c, s, t, s1, t1, s2, t2);
  }

  /** A timer was started at the start of a stale bucket, which then came up. */
  lemma RanEarly(k: Turn, s: State, t: Table, s1: State, t1: Table, s2: State, t2: Table, u: nat, b: nat)
    requires Inv(s, k.c, None) && Inv(s1, k.c, None) && Armed(s, [], None, []) && Stale(s, b, u, k.c.tick) && b < |s.buckets|
    requires Acted(s, t, s1, t1, k.ids) && Done(Script([StartTimer(s.buckets[b].expiration, 0, 0)]), 1, s, t, s1, t1)
    requires Turned(k, s1, t1, s2, t2) && DueSettled(s1, s2, k.now, k.c.tick) && TimersMatch(t2, s2.timers)
    requires k.c.tick > 0 && k.now == TimeToPrecision(s.buckets[b].expiration, k.c.tick) && k.ids == iset{}
    ensures EarlySince(s, s2, u, k.c.tick)
  {
    hide Inv, Armed, Stale, Acted, Done, Did, Turned, DueSettled, TimersMatch, TimeToPrecision, Quiet, PlacedAt, Due, Later, Tracked, Took,
         Respects;
    var e := s.buckets[b].expiration;
    StaleParts(s, b, u, k.c.tick);
    FirstIsFirst(s, b, k.c, None);
    DoneOne(StartTimer(e, 0, 0), s, t, s1, t1);
    OnlyStarted(s, t, s1, t1, e, 0, 0);
    ActedParts(s, t, s1, t1, k.c.tick, k.ids);
    RefillDue(s, s1, b, u, k.c);
    TurnedParts(k, s1, t1, s2, t2);
    NotCancelled(s1, t1, s2, t2, u, k.c.tick);
    TurnedTicked(k, s1, t1, s2, t2);
    RunsEarly(s, s1, s2, u, k.now, k.c);
  }

  lemma TurnedTicked(k: Turn, s0: State, t0: Table, s: State, t: Table)
    requires Turned(k, s0, t0, s, t)
    ensures Ticked(s0, s, k.now, k.c.tick)
  {
    hide Ticked;
  }

  lemma StaleParts(s: State, b: nat, u: nat, tick: int)
    requires Stale(s, b, u, tick)
    ensures b < |s.buckets| && u < |s.timers| && tick > 0
    ensures TimeToPrecision(s.buckets[b].expiration, tick) <= s.timers[u].expiration - 2 * tick
  {
  }

  /** A repeating timer is no request's, so callbacks that do nothing do not cancel it. */
  lemma NotCancelled(s: State, t: Table, s': State, t': Table, u: nat, tick: int)
    requires Tracked(s, t, s', t', iset{}) && Later(s, s', tick) && TimersMatch(t', s'.timers)
    requires u < |s.timers| && Repeats(s.timers[u])
    ensures u in s'.cancelled ==> u in s.cancelled
  {
    hide TimersMatch;
    if u in t'.keyOf {
      OneShot(t', s'.timers, u);
    }
  }

  lemma OneShot(t: Table, timers: seq<Timer>, u: nat)
    requires TimersMatch(t, timers) && u in t.keyOf
    ensures u < |timers| && !Repeats(timers[u]) && u in t.deadlines && timers[u].expiration == t.deadlines[u]
  {
    assert Owns(t, timers, u);
  }

  /** What an operation does. */
  ghost predicate Ran(op: Op, c: Config, s: State, t: Table, s': State, t': Table) {
    match op
    case Do(script) => Done(script, |script.acts|, s, t, s', t')
    case Tick(now, callbacks) => Took(now, callbacks, c, s, t, s', t')
  }

  /** The first `n` operations, one after the other. */
  ghost predicate RunOf(ops: seq<Op>, n: nat, c: Config, s: State, t: Table, s': State, t': Table)
    requires n <= |ops|
  {
    if n == 0 then s' == s && t' == t
    else
      var m, op := n - 1, ops[n - 1];
      exists s1, t1 :: RunOf(ops, m, c, s, t, s1, t1) && Ran(op, c, s1, t1, s', t')
  }

  lemma RunNone(ops: seq<Op>, c: Config, s: State, t: Table)
    ensures RunOf(ops, 0, c, s, t, s, t)
  {
  }

  lemma RunNext(ops: seq<Op>, n: nat, c: Config, s: State, t: Table, s1: State, t1: Table, s': State, t': Table)
    requires n < |ops| && RunOf(ops, n, c, s, t, s1, t1) && Ran(ops[n], c, s1, t1, s', t')
    ensures RunOf(ops, n + 1, c, s, t, s', t')
  {
    hide Ran;
  }

  lemma OnlyStale(s: State, s': State, c: Config)
    requires Inv(s', c, None) && Later(s, s', c.tick)
    ensures forall u :: 0 <= u < |s.timers| && EarlySince(s, s', u, c.tick) ==> exists b :: Stale(s, b, u, c.tick)
  {
    hide Inv, Later, EarlySince, Stale;
    forall u | 0 <= u < |s.timers| && EarlySince(s, s', u, c.tick)
      ensures exists b :: Stale(s, b, u, c.tick)
    {
      EarlyOnlyIfStale(s, s', u, c);
    }
  }

  /** After a tick, every request ever sent before it whose deadline has come has been processed,
      or somebody has cancelled its timer by id. */
  ghost predicate RequestsPrompt(t0: Table, t: Table, now: int) {
    forall u :: u in t0.keyOf && u in t0.deadlines && t0.deadlines[u] <= now ==>
      t0.keyOf[u] in Processed(t.outcomes) || t0.keyOf[u] in t.orphans
  }

  lemma AfterTick(k: Turn, s0: State, t0: Table, s: State, t: Table, serverId: nat, tag: nat, max: nat)
    requires Inv(s, k.c, None) && Inv(s0, k.c, None) && Armed(s0, [], None, []) && Turned(k, s0, t0, s, t)
    requires TimersMatch(t0, s0.timers) && TimersMatch(t, s.timers) && KeysOk(t, serverId, tag, max)
    ensures DueSettled(s0, s, k.now, k.c.tick) && RequestsPrompt(t0, t, k.now)
  {
    hide Inv, Ticked, TimersMatch, Took, Armed, KeysOk, Processed, DueSettled, Tracked;
    Prompt(s0, s, k.now, k.c);
    TickedParts(s0, s, k.now, k.c.tick);
    forall u | u in t0.keyOf && u in t0.deadlines && t0.deadlines[u] <= k.now
      ensures t0.keyOf[u] in Processed(t.outcomes) || t0.keyOf[u] in t.orphans
    {
      LateRequest(k, s0, t0, s, t, u, serverId, tag, max);
    }
  }

  lemma TickedParts(s0: State, s: State, now: int, tick: int)
    requires Ticked(s0, s, now, tick)
    ensures Later(s0, s, tick) && Respects(s0, s)
  {
  }

  lemma LateRequest(k: Turn, s0: State, t0: Table, s: State, t: Table, u: nat, serverId: nat, tag: nat, max: nat)
    requires Inv(s, k.c, None) && DueSettled(s0, s, k.now, k.c.tick) && Respects(s0, s) && Tracked(s0, t0, s, t, k.ids)
    requires TimersMatch(t0, s0.timers) && TimersMatch(t, s.timers) && KeysOk(t, serverId, tag, max)
    requires u in t0.keyOf && u in t0.deadlines && t0.deadlines[u] <= k.now
    ensures t0.keyOf[u] in Processed(t.outcomes) || t0.keyOf[u] in t.orphans
  {
    hide Inv, KeysOk, TimersMatch, DueSettled, Respects, Processed;
    OneShot(t0, s0.timers, u);
    OneShot(t, s.timers, u);
    LateIsIdle(s0, s, u, k.now, k.c);
    IdleRequest(t, s.timers, u, serverId, tag, max);
  }

  /** A request whose timer is idle has been processed or left behind. */
  lemma IdleRequest(t: Table, timers: seq<Timer>, u: nat, serverId: nat, tag: nat, max: nat)
    requires TimersMatch(t, timers) && KeysOk(t, serverId, tag, max) && u in t.keyOf && u < |timers| && timers[u].bucket == None
    ensures t.keyOf[u] in Processed(t.outcomes) || t.keyOf[u] in t.orphans
  {
    hide Processed, Counted, OnceEach, Owns;
    var key := t.keyOf[u];
    if key in t.cbMap {
      assert Pending(t, timers, key) && SentWith(t, key, t.cbMap[key] - 1);
    }
  }

  /** A one-shot timer whose time has come is idle after the tick. */
  lemma LateIsIdle(s0: State, s: State, u: nat, now: int, c: Config)
    requires Inv(s, c, None) && DueSettled(s0, s, now, c.tick) && Respects(s0, s)
    requires u < |s0.timers| && u < |s.timers| && s0.timers[u].expiration <= now && !Repeats(s.timers[u])
    ensures s.timers[u].bucket == None
  {
    hide WheelsOk, SlotsOk, QueueOk, TimersOk, Interval, Silent, Due;
    if s0.timers[u].bucket.Some? {
      assert CalledUp(s0, u, now, c.tick);
    }
  }

  lemma ReadyParts(server: Server)
    requires server.Ready()
    ensures Inv(server.timers.S(), server.timers.config, None) && TimersMatch(server.T(), server.timers.timers)
    ensures Armed(server.timers.S(), [], None, []) && NoneLost(server.timers.S())
    ensures KeysOk(server.T(), server.serverId, server.tag, server.uniqueID)
  {
  }

  lemma ActedParts(s: State, t: Table, s': State, t': Table, tick: int, ids: iset<nat>)
    requires Acted(s, t, s', t', ids) && Armed(s, [], None, [])
    ensures Armed(s', [], None, []) && Later(s, s', tick) && Tracked(s, t, s', t', ids)
  {
    ArmedStays(s, s', [], None, [], None);
    QuietLater(s, s', tick);
    hide Quiet, Later, Armed;
  }

  /** The table moved, and cancellations are accounted for. */
  ghost predicate Tracked(s0: State, t0: Table, s: State, t: Table, ids: iset<nat>) {
    Moved(t0, t, ids) && AskedFor(s0.cancelled, s.cancelled, t, ids) && t.orphans <= t.cbMap.Keys
  }

  lemma TrackedSelf(s: State, t: Table, ids: iset<nat>)
    requires t.cbMap.Keys !! Processed(t.outcomes) && t.orphans <= t.cbMap.Keys
    ensures Tracked(s, t, s, t, ids)
  {
    MovedSelf(t, ids);
  }

  lemma TrackedTrans(s0: State, t0: Table, s1: State, t1: Table, s2: State, t2: Table, ids: iset<nat>)
    requires Tracked(s0, t0, s1, t1, ids) && Tracked(s1, t1, s2, t2, ids)
    ensures Tracked(s0, t0, s2, t2, ids)
  {
    MovedTrans(t0, t1, t2, ids);
    AskedTrans(s0, s1, t1, s2, t2, ids);
    hide Moved, AskedFor;
  }

  lemma OwnerPending(t: Table, timers: seq<Timer>, u: nat)
    requires TimersMatch(t, timers) && u in t.keyOf && u < |timers| && timers[u].bucket.Some?
    ensures t.keyOf[u] in t.cbMap && t.cbMap[t.keyOf[u]] == u + 1
  {
    assert Owns(t, timers, u);
  }

  /** Old timers do not become requests' timers. */
  lemma KeyOfOld(s: State, t: Table, s': State, t': Table, u: nat, ids: iset<nat>)
    requires Acted(s, t, s', t', ids) && u < |s.timers|
    ensures u < |s'.timers| && (u in t.keyOf <==> u in t'.keyOf) && s'.fired == s.fired
  {
  }

  /** A timer's callback ran: what became of the timer, and all that may have changed. */
  ghost predicate Visited(s: State, t: Table, s': State, t': Table, u: nat, listed: nat, now: int, tick: int, ids: iset<nat>) {
    && u < |s.timers| && s.timers[u].bucket.Some? && Quiet(s, s', Some(u)) && Later(s, s', tick) && Tracked(s, t, s', t', ids)
    && s'.fired == RunCallback(s, u, now, listed).fired
    && (!Repeats(s.timers[u]) ==> s'.timers[u].bucket == None)
    && (Repeats(s.timers[u]) ==> u in s'.cancelled || PlacedAt(s', u, NextTime(s, u)))
  }

  lemma TimersInv(tm: TimerManager, running: Option<nat>)
    requires tm.Valid(running)
    ensures Inv(tm.S(), tm.config, running)
  {
  }

  lemma TrackedFlags(s: State, t: Table, s': State, ids: iset<nat>)
    requires OnlyFlags(s, s') && t.cbMap.Keys !! Processed(t.outcomes) && t.orphans <= t.cbMap.Keys
    ensures Tracked(s, t, s', t, ids)
  {
    MovedSelf(t, ids);
  }

  // -------------------------------------------------------------- the parts of a tick

  /** A tick at `now` in which the n-th callback ever run does `callbacks(n)`, which cancels only
      timers with one of the `ids`. */
  datatype Turn = Turn(now: int, callbacks: nat -> Script, c: Config, ids: iset<nat>)

  /** Between two buckets: `later` are still to come. */
  ghost predicate Between(k: Turn, s0: State, t0: Table, s: State, t: Table, later: seq<nat>) {
    && Armed(s, later, None, []) && Soon(s, later, k.now, k.c.tick)
    && Progress(s0, s, k.now, k.c.tick) && Promise(s0, s, later, None, [], k.now, k.c.tick)
    && Tracked(s0, t0, s, t, k.ids) && Took(k.now, k.callbacks, k.c, s0, t0, s, t)
  }

  /** Amid bucket `b`: `rest` is still to visit. */
  ghost predicate Amid(k: Turn, s0: State, t0: Table, s: State, t: Table, later: seq<nat>, b: nat, rest: seq<Entry>) {
    && Armed(s, later, Some(b), rest) && Soon(s, later, k.now, k.c.tick)
    && StillListed(s, b, rest) && Up(s, b, k.now, k.c.tick)
    && Progress(s0, s, k.now, k.c.tick) && Promise(s0, s, later, Some(b), rest, k.now, k.c.tick)
    && Tracked(s0, t0, s, t, k.ids) && Took(k.now, k.callbacks, k.c, s0, t0, s, t)
  }

  /** The tick so far, all popped buckets done. */
  ghost predicate Turned(k: Turn, s0: State, t0: Table, s: State, t: Table) {
    Ticked(s0, s, k.now, k.c.tick) && Tracked(s0, t0, s, t, k.ids) && Took(k.now, k.callbacks, k.c, s0, t0, s, t)
  }

  lemma TurnedParts(k: Turn, s0: State, t0: Table, s: State, t: Table)
    requires Turned(k, s0, t0, s, t)
    ensures Later(s0, s, k.c.tick) && Tracked(s0, t0, s, t, k.ids) && Took(k.now, k.callbacks, k.c, s0, t0, s, t)
  {
    hide Took, Tracked;
    TickedParts(s0, s, k.now, k.c.tick);
  }

  lemma FirstTurn(k: Turn, s0: State, t0: Table, s: State, t: Table)
    requires Between(k, s0, t0, s, t, [])
    ensures Turned(k, s0, t0, s, t)
  {
    hide Armed, Progress, Promise, Tracked, Took, Ticked;
    FirstPass(s0, s, k.now, k.c.tick);
  }

  lemma NextTurn(k: Turn, s0: State, t0: Table, s: State, t: Table, s1: State, s2: State, t2: Table)
    requires Turned(k, s0, t0, s, t) && s1 == s.(handler := s1.handler) && Between(k, s1, t, s2, t2, [])
    ensures Turned(k, s0, t0, s2, t2)
    ensures s2.handler == s1.handler && |s1.wheels| <= |s2.wheels|
    ensures forall w :: 0 <= w < |s1.wheels| ==> s2.wheels[w].start == s1.wheels[w].start
  {
    hide Armed, Promise, Took, Ticked, Soon, Later;
    NextPass(s0, s, s1, s2, k.now, k.c.tick);
    TookMore(k.now, k.callbacks, k.c, s0, t0, s, t, s1, t);
    TookTrans(k.now, k.callbacks, k.c, s0, t0, s1, t, s2, t2);
    assert Tracked(s, t, s2, t2, k.ids);
    hide Tracked;
    TrackedTrans(s0, t0, s, t, s2, t2, k.ids);
  }

  lemma BetweenArmed(k: Turn, s0: State, t0: Table, s: State, t: Table)
    requires Between(k, s0, t0, s, t, [])
    ensures Armed(s, [], None, [])
  {
    hide Armed, Progress, Promise, Tracked, Took;
  }

  lemma TurnStarts(k: Turn, s0: State, s: State, t: Table, expired: seq<nat>)
    requires Armed(s, expired, None, []) && Soon(s, expired, k.now, k.c.tick)
    requires OnlyFlags(s0, s) && NoneDue(s, k.now, k.c.tick) && Gone(s0, s, expired)
    requires t.cbMap.Keys !! Processed(t.outcomes) && t.orphans <= t.cbMap.Keys
    ensures Between(k, s0, t, s, t, expired)
  {
    hide Armed, Soon, Progress, Promise, Tracked, Took, NoneDue, Gone;
    StartPromise(s0, s, expired, k.now, k.c.tick);
    TrackedFlags(s0, t, s, k.ids);
    TookNone(k.now, k.callbacks, k.c, s0, t);
    TookMore(k.now, k.callbacks, k.c, s0, t, s0, t, s, t);
  }

  lemma Opened(k: Turn, s0: State, t0: Table, s: State, t: Table, b: nat, later: seq<nat>)
    requires Inv(s, k.c, None) && Between(k, s0, t0, s, t, [b] + later)
    ensures b < |s.buckets| && Amid(k, s0, t0, s, t, later, b, s.buckets[b].entries)
  {
    hide Inv, Armed, Soon, StillListed, Progress, Promise, Tracked, Took;
    OpenBucket(s0, s, b, later, k.now, k.c);
  }

  lemma Closed(k: Turn, s0: State, t0: Table, s: State, t: Table, b: nat, later: seq<nat>)
    requires Amid(k, s0, t0, s, t, later, b, [])
    ensures Between(k, s0, t0, s, t, later)
  {
    hide Armed, Soon, Progress, Promise, Tracked, Took;
    CloseBucket(s0, s, b, later, k.now, k.c.tick);
  }

  lemma NextVisit(k: Turn, s0: State, t0: Table, s: State, t: Table, later: seq<nat>, b: nat, e: Entry, rest: seq<Entry>)
    requires Amid(k, s0, t0, s, t, later, b, [e] + rest)
    ensures e.timer < |s.timers| && (s.timers[e.timer].bucket.Some? ==> Lists(s, b, e.timer)) && Up(s, b, k.now, k.c.tick)
  {
    hide Armed, Soon, StillListed, Progress, Promise, Tracked, Took, Lists, Up;
    NextEntry(s, b, e, rest);
  }

  /** One entry's turn is over, and the promises about the rest are kept. */
  lemma AfterVisit(k: Turn, s0: State, t0: Table, s: State, t: Table, s': State, t': Table, later: seq<nat>, b: nat, e: Entry,
                   rest: seq<Entry>)
    requires Amid(k, s0, t0, s, t, later, b, [e] + rest) && Inv(s', k.c, None)
    requires e.timer < |s.timers| && (s.timers[e.timer].bucket.None? ==> s' == s && t' == t)
    requires s.timers[e.timer].bucket.Some? ==>
               && Visited(s, t, s', t', e.timer, b, k.now, k.c.tick, k.ids) && Lists(s, b, e.timer)
               && Fires(e.timer, b, k.now, k.callbacks(|s.fired|), s, t, s', t')
    ensures Amid(k, s0, t0, s', t', later, b, rest)
  {
    hide Inv, Armed, Soon, StillListed, Progress, Promise, Tracked, Quiet, Later, Took, Lists, Up, Fires;
    if s.timers[e.timer].bucket.None? {
      IdleQuiet(s, e.timer);
      LaterSelf(s, k.c.tick);
    } else {
      TrackedTrans(s0, t0, s, t, s', t', k.ids);
      assert Runs(e.timer, b, k.now, k.callbacks, k.c, s, t, s', t');
      TookMore(k.now, k.callbacks, k.c, s0, t0, s, t, s', t');
    }
    AfterEntry(s0, s, s', later, b, e, rest, k.now, k.c);
  }

  /** A repeating timer that stays within the current wheel. */
  ghost predicate Plain(s: State, u: nat, c: Config) {
    && u < |s.timers| && Repeats(s.timers[u]) && s.timers[u].bucket.Some? && c.tick > 0 && s.handler < |s.wheels|
    && NextTime(s, u) < HandlerStart(s) + Interval(c)
  }

  lemma HandlerExists(tm: TimerManager, running: Option<nat>)
    requires tm.Valid(running)
    ensures tm.handler < |tm.wheels|
  {
  }

  lemma Aftermath(s: State, t: Table, s2: State, t2: Table, s3: State, u: nat, now: int, listed: nat, tick: int, ids: iset<nat>)
    requires u < |s.timers| && s.timers[u].bucket.Some? && s.handler < |s.wheels| && Lists(s, listed, u) && Up(s, listed, now, tick)
    requires Acted(RunCallback(s, u, now, listed), t, s2, t2, ids) && Rearmed(s2, s3, u)
    requires TimersMatch(t2, s2.timers) && (u in t2.keyOf ==> s2.timers[u].bucket == None)
    requires Quiet(s, RunCallback(s, u, now, listed), None)
    ensures Visited(s, t, s3, t2, u, listed, now, tick, ids) && TimersMatch(t2, s3.timers) && s3.fired == s2.fired
  {
    hide Elsewhere, Moved, AskedFor, NewKeys, Later, TimersMatch, PlacedAt, Lists, Up;
    var s1 := RunCallback(s, u, now, listed);
    QuietTrans(s, s1, s2, None);
    StillThere(s, s2, u);
    hide Quiet;
    FiredLater(s, s2, s3, u, now, listed, tick);
    RearmedMatch(t2, s2, s3, u);
  }

  /** Re-arming a timer that is no request's, or stopping one that is idle. */
  lemma RearmedMatch(t: Table, s: State, s': State, u: nat)
    requires TimersMatch(t, s.timers) && Rearmed(s, s', u)
    requires u in t.keyOf ==> s.timers[u].bucket == None
    ensures TimersMatch(t, s'.timers)
  {
    if u in t.keyOf {
      assert Owns(t, s.timers, u);
    }
    OthersChanged(t, s.timers, s'.timers);
  }

  lemma RanNow(s: State, u: nat, now: int, listed: nat)
    requires u < |s.timers| && s.timers[u].bucket.Some?
    ensures RanSince(0, RunCallback(s, u, now, listed).fired, u)
  {
    assert RunCallback(s, u, now, listed).fired[|s.fired|].timer == u;
  }

  lemma StartedActed(s: State, t: Table, s': State, ids: iset<nat>)
    requires Quiet(s, s', None) && s'.fired == s.fired && s'.cancelled == s.cancelled
    requires |s.timers| < |s'.timers| && s'.timers[..|s.timers|] == s.timers
    requires TimersMatch(t, s.timers) && t.cbMap.Keys !! Processed(t.outcomes)
    ensures Acted(s, t, s', t, ids) && TimersMatch(t, s'.timers)
  {
    forall u | 0 <= u < |s.timers|
      ensures s'.timers[u] == s.timers[u]
    {
      assert s'.timers[..|s.timers|][u] == s.timers[u];
    }
    OthersChanged(t, s.timers, s'.timers);
    MovedSelf(t, ids);
    hide Quiet, Moved, Pending, Owns;
  }

  lemma StaysIdle(s: State, t: Table, s': State, t': Table, u: nat, ids: iset<nat>)
    requires Acted(s, t, s', t', ids) && u < |s.timers| && s.timers[u].bucket == None
    ensures u < |s'.timers| && s'.timers[u].bucket == None
  {
    hide Kept, NoneOrQueued, Moved, AskedFor;
  }

  lemma ActedMoved(s: State, t: Table, s': State, t': Table, ids: iset<nat>)
    requires Acted(s, t, s', t', ids)
    ensures Moved(t, t', ids)
  {
  }

  /** What was processed stays so. */
  lemma StaysProcessed(t: Table, t1: Table, t2: Table, key: string, timedOut: bool, serverId: nat, tag: nat, max: nat, ids: iset<nat>)
    requires key in t.cbMap && t.cbMap[key] > 0 && t1 == Taken(t, key, timedOut)
    requires Moved(t1, t2, ids) && KeysOk(t2, serverId, tag, max)
    ensures key !in t2.cbMap && |t.outcomes| < |t2.outcomes|
    ensures t2.outcomes[|t.outcomes|] == Outcome(key, timedOut, t.cbMap[key] - 1)
  {
    hide Counted;
    var o := t1.outcomes[|t.outcomes|];
    assert o == Outcome(key, timedOut, t.cbMap[key] - 1);
    assert t2.outcomes[|t.outcomes|] == o;
    assert o.key in Processed(t2.outcomes);
  }

  lemma TakenIs(t: Table, key: string, timedOut: bool)
    requires key in t.cbMap && t.cbMap[key] > 0
    ensures Taken(t, key, timedOut) ==
            Table(t.cbMap - {key}, t.keyOf, t.outcomes + [Outcome(key, timedOut, t.cbMap[key] - 1)], t.orphans - {key}, t.deadlines)
  {
  }

  lemma IdledParts(s: State, s': State, id: nat)
    requires Idled(s, s', id)
    ensures |s'.timers| == |s.timers| && s'.fired == s.fired
  {
  }

  lemma OrphanActed(s: State, t: Table, s': State, id: nat, serverId: nat, tag: nat, max: nat, ids: iset<nat>)
    requires KeysOk(t, serverId, tag, max) && TimersMatch(t, s.timers) && id in ids && Idled(s, s', id)
    ensures
      var t' := Orphaned(t, s.timers, id - 1);
      && KeysOk(t', serverId, tag, max) && TimersMatch(t', s'.timers) && Acted(s, t, s', t', ids) && s'.fired == s.fired
      && s'.timers == s.timers[id - 1 := s.timers[id - 1].(bucket := None)] && t' == t.(orphans := t'.orphans)
  {
    hide KeysOk, TimersMatch, Acted, Quiet, Moved;
    KeysParts(t, s, serverId, tag, max);
    OrphanMatch(t, s.timers, id - 1, ids);
    OrphanKeys(t, s.timers, id - 1, serverId, tag, max);
    CancelActed(s, t, s', Orphaned(t, s.timers, id - 1), id - 1, ids);
  }

  lemma IdledTwice(s: State, s1: State, s2: State, id: nat)
    requires Idled(s, s1, id) && Idled(s1, s2, id)
    ensures Idled(s, s2, id) && |s2.timers| == |s.timers| && s2.timers[id - 1].bucket == None && s2.fired == s.fired
  {
    QuietTrans(s, s1, s2, None);
    hide Quiet;
  }

  lemma TakenActed(s: State, t: Table, s': State, key: string, timedOut: bool, ids: iset<nat>)
    requires TimersMatch(t, s.timers) && key in t.cbMap && t.cbMap[key] > 0 && Idled(s, s', t.cbMap[key])
    requires Moved(t, Taken(t, key, timedOut), ids)
    ensures Acted(s, t, s', Taken(t, key, timedOut), ids) && TimersMatch(Taken(t, key, timedOut), s'.timers)
  {
    hide TimersMatch, Quiet, Moved, Taken;
    PendingParts(t, s.timers, key);
    TakenMatch(t, s.timers, key, timedOut);
    TakenIs(t, key, timedOut);
    MatchOrphans(Taken(t, key, timedOut), s'.timers);
  }

  lemma MatchOrphans(t: Table, timers: seq<Timer>)
    requires TimersMatch(t, timers)
    ensures t.orphans <= t.cbMap.Keys
  {
  }

  lemma TakenOutcomes(t: Table, key: string, timedOut: bool, fired: seq<Firing>)
    requires OutcomesOk(t.outcomes, fired) && key in t.cbMap && t.cbMap[key] > 0
    requires timedOut ==> RanSince(0, fired, t.cbMap[key] - 1)
    ensures OutcomesOk(Taken(t, key, timedOut).outcomes, fired)
  {
    hide RanSince;
  }

  lemma PendingParts(t: Table, timers: seq<Timer>, key: string)
    requires TimersMatch(t, timers) && key in t.cbMap
    ensures 0 < t.cbMap[key] <= |timers| && t.cbMap[key] - 1 in t.keyOf
  {
    assert Pending(t, timers, key);
  }

  lemma KeysParts(t: Table, s: State, serverId: nat, tag: nat, max: nat)
    requires KeysOk(t, serverId, tag, max) && TimersMatch(t, s.timers)
    ensures t.cbMap.Keys !! Processed(t.outcomes) && t.orphans <= t.cbMap.Keys
  {
  }

  lemma OrphanKeys(t: Table, timers: seq<Timer>, u: nat, serverId: nat, tag: nat, max: nat)
    requires KeysOk(t, serverId, tag, max) && TimersMatch(t, timers) && u < |timers|
    ensures KeysOk(Orphaned(t, timers, u), serverId, tag, max) && Orphaned(t, timers, u).orphans <= t.cbMap.Keys
  {
    hide Counted;
    if u in t.keyOf {
      assert Owns(t, timers, u);
    }
  }

  /** A new request and its timer. */
  lemma Sent(s: State, t: Table, s': State, key: string, e: int, ids: iset<nat>)
    requires TimersMatch(t, s.timers) && t.cbMap.Keys !! Processed(t.outcomes)
    requires key !in t.cbMap && key !in Processed(t.outcomes)
    requires AddedOnce(s, s', e)
    ensures |s'.timers| > 0 && PlacedAt(s', |s'.timers| - 1, e) && s'.fired == s.fired && |s'.timers| - 1 !in t.keyOf
    ensures TimersMatch(Registered(t, key, |s'.timers|, e), s'.timers)
    ensures Acted(s, t, s', Registered(t, key, |s'.timers|, e), ids)
  {
    PlacedParts(s', |s.timers|, e);
    if |s.timers| in t.keyOf {
      OneShot(t, s.timers, |s.timers|);
    }
    RegisterMatch(t, s.timers, s'.timers, key);
    RegisterMoved(t, s.timers, key, |s'.timers|, e, ids);
    hide Quiet, Moved, Pending, Owns;
  }

  lemma RegisterKeys(t: Table, key: string, id: nat, deadline: int, serverId: nat, tag: nat, max: nat)
    requires KeysOk(t, serverId, tag, max) && id > 0 && Counted(key, serverId, tag, max)
    requires key !in t.cbMap && key !in Processed(t.outcomes)
    requires id - 1 !in t.keyOf
    ensures KeysOk(Registered(t, key, id, deadline), serverId, tag, max)
  {
    RegisterOnce(t, key, id, deadline);
    hide Counted, Processed, OnceEach;
    forall u | u in t.keyOf
      ensures t.keyOf[u] != key
    {
    }
    RegisterRequests(t, key, id, deadline, serverId, tag, max);
  }

  lemma RegisterRequests(t: Table, key: string, id: nat, deadline: int, serverId: nat, tag: nat, max: nat)
    requires RequestsOk(t, serverId, tag, max) && id > 0 && id - 1 !in t.keyOf && Counted(key, serverId, tag, max)
    requires forall u :: u in t.keyOf ==> t.keyOf[u] != key
    ensures RequestsOk(Registered(t, key, id, deadline), serverId, tag, max)
  {
    hide Counted, Processed;
    var t' := Registered(t, key, id, deadline);
    assert OneTimerEach(t'.keyOf);
    hide OneTimerEach;
    forall k | k in t'.cbMap
      ensures t'.cbMap[k] > 0 && SentWith(t', k, t'.cbMap[k] - 1)
    {
      assert k != key ==> SentWith(t, k, t.cbMap[k] - 1);
    }
    hide SentWith;
  }

  lemma RegisterOnce(t: Table, key: string, id: nat, deadline: int)
    requires OnceEach(t) && id > 0 && id - 1 !in t.keyOf && key !in Processed(t.outcomes)
    ensures OnceEach(Registered(t, key, id, deadline))
  {
    hide Processed;
  }

  // ---------------------------------------------------------------- a timer that runs too early

  /** No requests, one wheel. */
  ghost predicate Calm(server: Server, s: State)
    reads server, server.timers, server.timers.queue
  {
    && server.Valid(None) && server.timers.config == Config(1, 20) && server.T() == Table(map[], map[], [], {}, map[])
    && server.timers.S() == s
  }

  method EarlyAdd() returns (server: Server)
    ensures fresh(server) && fresh(server.timers) && fresh(server.timers.queue) && Calm(server, Early1())
  {
    hide Inv, Respects, Quiet, PlaceIn, PlacedAt, TimerManager.Valid, TimerManager.MapOk, Stale;
    EarlyRun();
    var tm := new TimerManager(Config(1, 20), 0);
    server := new Server(tm, 1, 1);
    var id := tm.AddTimer(0, 0, FIVE_MS, None);
    EarlyMap(tm);
  }

  lemma EarlyMap(tm: TimerManager)
    requires tm.timerMap == map[1 := 0] && tm.S() == Early1()
    ensures tm.MapOk()
  {
  }

  method EarlyFire(server: Server)
    requires Calm(server, Early1())
    modifies server, server.timers, server.timers.queue
    ensures Calm(server, Early2())
  {
    hide Inv, Armed, Soon, Visited, Fires, PlaceIn, NoneDue, OnlyFlags, TimerManager.Valid, TimerManager.MapOk, Stale, Lists, Up;
    EarlyRun();
    EarlyPop(None);
    var b := server.timers.PeekAndShift(0, []);
    EarlyPop(b);
    StillUp(server.timers.S());
    server.FireTimer(0, 0, 0, Script([]), iset{});
  }

  lemma StillUp(s: State)
    requires OnlyFlags(Early1(), s)
    ensures Lists(s, 0, 0) && Up(s, 0, 0, 1)
  {
    assert Entry(0, 0) in s.buckets[0].entries;
  }

  lemma SentAtOnce(s: State, s': State, t': Table)
    requires OnlyFlags(Early1(), s)
    requires Fires(0, 0, 0, Script([SendRequest(0, 0)]), s, Table(map[], map[], [], {}, map[]), s', t')
    ensures Overdue(t', 0)
  {
    hide Done, Rearmed, Quiet, AddedOnce;
    var t, s1 := Table(map[], map[], [], {}, map[]), RunCallback(s, 0, 0, 0);
    var s2 :| CalledBack(0, Script([SendRequest(0, 0)]), s1, t, s2, t') && Rearmed(s2, s', 0);
    DoneOne(SendRequest(0, 0), s1, t, s2, t');
    var key :| Requested(s1, t, s2, t', key, 0, 0);
    assert |s2.timers| - 1 in t'.keyOf;
  }

  /** The steps of a tick at 0 in which the only timer's callback sends a request with no time to
      wait: it is pending when the tick ends, although its deadline has come. */
  method SendInTick(server: Server)
    requires Calm(server, Early1())
    modifies server, server.timers, server.timers.queue
    ensures server.Ready() && Overdue(server.T(), 0)
  {
    hide Inv, Armed, Soon, Visited, Fires, NoneDue, Gone, TimerManager.Valid, TimerManager.MapOk, Stale, PlaceIn, Overdue, Lists, Up;
    EarlyRun();
    EarlyPop(None);
    var expired := server.timers.GetExpiredAndShift(0);
    StillUp(server.timers.S());
    ghost var s := server.timers.S();
    server.FireTimer(0, 0, 0, Script([SendRequest(0, 0)]), iset{});
    SentAtOnce(s, server.timers.S(), server.T());
    AllQueued(s, Table(map[], map[], [], {}, map[]), server.timers.S(), server.T(), iset{});
  }

  /** A request whose deadline has come is pending, and nobody has cancelled its timer. */
  ghost predicate Overdue(t: Table, now: int) {
    exists u :: u in t.keyOf && u in t.deadlines && t.deadlines[u] <= now && t.keyOf[u] in t.cbMap && t.keyOf[u] !in t.orphans
  }

  lemma AllQueued(s: State, t: Table, s': State, t': Table, ids: iset<nat>)
    requires |s.timers| == 1 && Visited(s, t, s', t', 0, 0, 0, 1, ids)
    ensures Armed(s', [], None, [])
  {
    hide Later, Tracked, Listings;
    forall u | 0 <= u < |s'.timers| && s'.timers[u].bucket.Some?
      ensures ArmedOne(s', [], None, [], u)
    {
      assert NoneOrQueued(s', u);
    }
  }

  /** The methods of a server lead to a state in which a bucket lists a timer that has left it. */
  method ReachStale() returns (server: Server)
    ensures fresh(server) && fresh(server.timers) && fresh(server.timers.queue)
    ensures server.Ready() && Stale(server.timers.S(), 0, 0, server.timers.config.tick)
  {
    hide Early1, Early2, Inv, Lists, Up;
    EarlyRun();
    server := EarlyAdd();
    EarlyFire(server);
    EarlyArmed();
  }

  lemma EarlyArmed()
    ensures Armed(Early2(), [], None, [])
  {
  }
}
