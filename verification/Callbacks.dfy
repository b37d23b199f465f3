/** Requests that wait for an answer: the callback table of a game server. */
module Callbacks {
  import opened Common
  import opened TimerWheel

  /** A callback was processed, with the answer or with a timeout error; `timer` was its timer. */
  datatype Outcome = Outcome(key: string, timedOut: bool, timer: nat)

  /** What code run by a callback or a message does to timers and requests, in order. `clock` is
      the time of day when it asks, durations are in milliseconds. An answer to a pending request
      runs that request's callback, which does `effect`. */
  datatype Action =
    | StartTimer(clock: int, duration: int, repeatNs: int)
    | CancelTimer(id: nat)
    | SendRequest(clock: int, timeout: int)
    | Answer(key: string, effect: Script)

  datatype Script = Script(acts: seq<Action>)

  /** The script cancels only timers with these ids, apart from those of answered requests. */
  ghost predicate Within(script: Script, ids: iset<nat>) {
    forall i :: 0 <= i < |script.acts| ==> ActWithin(script.acts[i], ids)
  }

  ghost predicate ActWithin(a: Action, ids: iset<nat>) {
    match a
    case CancelTimer(id) => id in ids
    case Answer(_, effect) => Within(effect, ids)
    case _ => true
  }

  // ---------------------------------------------------------------- keys

  function Digit(d: nat): char
    requires d < 10
  {
    '0' + d as char
  }

  function Decimal(n: nat): (s: string)
    ensures s != []
  {
    if n < 10 then [Digit(n)] else Decimal(n / 10) + [Digit(n % 10)]
  }

  /** Decimal notation: one more digit behind the digits. */
  lemma DecimalIs(n: nat, d: nat)
    requires d < 10
    ensures Decimal(d) == ["0123456789"[d]]
    ensures n > 0 ==> Decimal(10 * n + d) == Decimal(n) + ["0123456789"[d]]
  {
    var i := d as int;
    assert i == 0 || i == 1 || i == 2 || i == 3 || i == 4 || i == 5 || i == 6 || i == 7 || i == 8 || i == 9;
  }

  lemma {:induction false} DecimalInjective(m: nat, n: nat)
    requires Decimal(m) == Decimal(n)
    ensures m == n
  {
    var s, t := Decimal(m), Decimal(n);
    assert s[|s| - 1] == t[|t| - 1] && s[..|s| - 1] == t[..|t| - 1];
    LastDigit(m);
    LastDigit(n);
    if m >= 10 && n >= 10 {
      DecimalInjective(m / 10, n / 10);
    }
  }

  lemma LastDigit(n: nat)
    ensures var s := Decimal(n);
            s[|s| - 1] == Digit(n % 10) && s[..|s| - 1] == if n < 10 then [] else Decimal(n / 10)
  {
  }

  /** Server id, process tag and a counter. */
  function Key(serverId: nat, tag: nat, n: nat): string {
    Decimal(serverId) + "_" + Decimal(tag) + "_" + Decimal(n)
  }

  /** A key of server 12, process 3. */
  lemma KeyLooks()
    ensures Key(12, 3, 405) == "12_3_405"
  {
    DecimalIs(1, 2);
    DecimalIs(40, 5);
    DecimalIs(4, 0);
    assert Decimal(1) == "1" && Decimal(4) == "4" && Decimal(3) == "3";
    assert Decimal(12) == "12" && Decimal(40) == "40" && Decimal(405) == "405";
  }

  lemma KeyInjective(serverId: nat, tag: nat, m: nat, n: nat)
    requires Key(serverId, tag, m) == Key(serverId, tag, n)
    ensures m == n
  {
    var p := Decimal(serverId) + "_" + Decimal(tag) + "_";
    assert Key(serverId, tag, m)[|p|..] == Decimal(m);
    assert Key(serverId, tag, n)[|p|..] == Decimal(n);
    DecimalInjective(m, n);
  }

  // ---------------------------------------------------------------- the table

  /** `cbMap` gives the pending requests their timers' ids; `keyOf` is what the timers of all
      requests ever sent were given, and `deadlines` when they were to run; `orphans` are the
      pending requests whose timer somebody else has cancelled. */
  datatype Table = Table(cbMap: map<string, nat>, keyOf: map<nat, string>, outcomes: seq<Outcome>, orphans: set<string>,
                         deadlines: map<nat, int>) {
    /** The keys of all requests ever sent. */
    ghost function Used(): set<string> {
      keyOf.Values
    }
  }

  /** A key made by the counter so far. */
  ghost predicate Counted(key: string, serverId: nat, tag: nat, max: nat) {
    exists n: nat :: n <= max && key == Key(serverId, tag, n)
  }

  lemma NextIsNew(serverId: nat, tag: nat, max: nat)
    ensures !Counted(Key(serverId, tag, max + 1), serverId, tag, max)
  {
    if Counted(Key(serverId, tag, max + 1), serverId, tag, max) {
      var n: nat :| n <= max && Key(serverId, tag, max + 1) == Key(serverId, tag, n);
      KeyInjective(serverId, tag, max + 1, n);
      assert false;
    }
  }

  ghost function Processed(outcomes: seq<Outcome>): set<string> {
    set o | o in outcomes :: o.key
  }

  /** Keys come from the counter, each request and each outcome has its own, and a request that
      was sent is pending or was processed, not both. */
  ghost predicate KeysOk(t: Table, serverId: nat, tag: nat, max: nat) {
    RequestsOk(t, serverId, tag, max) && OnceEach(t)
  }

  ghost predicate RequestsOk(t: Table, serverId: nat, tag: nat, max: nat) {
    && (forall u :: u in t.keyOf ==> Counted(t.keyOf[u], serverId, tag, max))
    && OneTimerEach(t.keyOf)
    && (forall u :: u in t.keyOf ==> t.keyOf[u] in t.cbMap || t.keyOf[u] in Processed(t.outcomes))
    && (forall key :: key in t.cbMap ==> t.cbMap[key] > 0 && SentWith(t, key, t.cbMap[key] - 1))
  }

  ghost predicate OneTimerEach(keyOf: map<nat, string>) {
    forall u, v :: u in keyOf && v in keyOf && keyOf[u] == keyOf[v] ==> u == v
  }

  ghost predicate OnceEach(t: Table) {
    && (forall i :: 0 <= i < |t.outcomes| ==> SentWith(t, t.outcomes[i].key, t.outcomes[i].timer))
    && t.cbMap.Keys !! Processed(t.outcomes)
    && (forall i, j :: 0 <= i < j < |t.outcomes| ==> t.outcomes[i].key != t.outcomes[j].key)
  }

  /** The request `key` was sent with timer `u`. */
  ghost predicate SentWith(t: Table, key: string, u: nat) {
    u in t.keyOf && t.keyOf[u] == key
  }

  /** A pending request has a one-shot timer of its own, armed unless the request is an orphan. */
  ghost predicate Pending(t: Table, timers: seq<Timer>, key: string)
    requires key in t.cbMap
  {
    t.cbMap[key] > 0 &&
    var u: nat := t.cbMap[key] - 1;
    u < |timers| && u in t.keyOf && t.keyOf[u] == key && (timers[u].bucket.Some? <==> key !in t.orphans)
  }

  /** A timer of the table keeps its deadline; while it is armed its request is pending. */
  ghost predicate Owns(t: Table, timers: seq<Timer>, u: nat)
    requires u in t.keyOf
  {
    u < |timers| && !Repeats(timers[u]) && u in t.deadlines && timers[u].expiration == t.deadlines[u]
    && (timers[u].bucket.Some? ==> t.keyOf[u] in t.cbMap && t.cbMap[t.keyOf[u]] == u + 1)
  }

  ghost predicate TimersMatch(t: Table, timers: seq<Timer>) {
    && (forall key :: key in t.cbMap ==> Pending(t, timers, key))
    && (forall u :: u in t.keyOf ==> Owns(t, timers, u))
    && t.orphans <= t.cbMap.Keys
  }

  /** Only a timer that ran makes its request time out. */
  ghost predicate OutcomesOk(outcomes: seq<Outcome>, fired: seq<Firing>) {
    forall i :: 0 <= i < |outcomes| && outcomes[i].timedOut ==> RanSince(0, fired, outcomes[i].timer)
  }

  /** From one table to a later one: keys stay known and keep their timers and deadlines, outcomes stay, and
      only requests whose timer's id is among `ids` have become orphans. */
  ghost predicate Moved(t0: Table, t1: Table, ids: iset<nat>) {
    && t0.outcomes <= t1.outcomes
    && (forall u :: u in t0.keyOf ==> u in t1.keyOf && t1.keyOf[u] == t0.keyOf[u])
    && (forall u :: u in t0.keyOf && u in t0.deadlines ==> u in t1.deadlines && t1.deadlines[u] == t0.deadlines[u])
    && (forall k :: k in t0.cbMap || k in Processed(t0.outcomes) ==> k in t1.cbMap || k in Processed(t1.outcomes))
    && (forall k :: k in t1.cbMap && (k in t0.cbMap || k in Processed(t0.outcomes)) ==> k in t0.cbMap && t1.cbMap[k] == t0.cbMap[k])
    && (forall k :: k in t1.orphans && k !in t0.orphans ==> k in t1.cbMap && t1.cbMap[k] in ids)
  }

  lemma MovedTrans(t0: Table, t1: Table, t2: Table, ids: iset<nat>)
    requires Moved(t0, t1, ids) && Moved(t1, t2, ids)
    requires t1.orphans <= t1.cbMap.Keys && t2.orphans <= t2.cbMap.Keys
    ensures Moved(t0, t2, ids)
  {
    hide Processed;
    forall k | k in t2.orphans && k !in t0.orphans
      ensures k in t2.cbMap && t2.cbMap[k] in ids
    {
      if k in t1.orphans {
        assert k in t1.cbMap && t1.cbMap[k] in ids;
      }
    }
  }

  lemma MovedSelf(t: Table, ids: iset<nat>)
    requires t.cbMap.Keys !! Processed(t.outcomes)
    ensures Moved(t, t, ids)
  {
  }

  /** New cancellations are of the table's own timers, or of ids somebody asked for. */
  ghost predicate AskedFor(c0: map<nat, nat>, c: map<nat, nat>, t: Table, ids: iset<nat>) {
    forall u :: u in c && u !in c0 ==> u + 1 in ids || u in t.keyOf
  }

  // ---------------------------------------------------------------- changes of the timers

  /** The table's timers are armed or idle as they were. */
  lemma OthersChanged(t: Table, timers: seq<Timer>, timers': seq<Timer>)
    requires TimersMatch(t, timers) && |timers| <= |timers'|
    requires forall u :: u in t.keyOf && u < |timers| ==>
               && timers'[u].bucket.Some? == timers[u].bucket.Some?
               && timers'[u].repeatNs == timers[u].repeatNs && timers'[u].expiration == timers[u].expiration
    ensures TimersMatch(t, timers')
  {
    forall key | key in t.cbMap
      ensures Pending(t, timers', key)
    {
      assert Pending(t, timers, key);
    }
    forall u | u in t.keyOf
      ensures Owns(t, timers', u)
    {
      assert Owns(t, timers, u);
    }
  }

  lemma MoreFired(outcomes: seq<Outcome>, fired: seq<Firing>, fired': seq<Firing>)
    requires OutcomesOk(outcomes, fired) && fired <= fired'
    ensures OutcomesOk(outcomes, fired')
  {
    forall i | 0 <= i < |outcomes| && outcomes[i].timedOut
      ensures RanSince(0, fired', outcomes[i].timer)
    {
      var j :| 0 <= j < |fired| && fired[j].timer == outcomes[i].timer;
      assert fired'[j] == fired[j];
    }
  }

  /** The table with a new request. */
  function Registered(t: Table, key: string, id: nat, deadline: int): Table
    requires id > 0
  {
    t.(cbMap := t.cbMap[key := id], keyOf := t.keyOf[id - 1 := key], deadlines := t.deadlines[id - 1 := deadline])
  }

  lemma RegisterMatch(t: Table, timers: seq<Timer>, timers': seq<Timer>, key: string)
    requires TimersMatch(t, timers) && key !in t.cbMap
    requires |timers'| == |timers| + 1 && timers'[..|timers|] == timers
    requires timers'[|timers|].bucket.Some? && !Repeats(timers'[|timers|])
    ensures TimersMatch(Registered(t, key, |timers'|, timers'[|timers|].expiration), timers')
  {
    var t' := Registered(t, key, |timers'|, timers'[|timers|].expiration);
    forall u | 0 <= u < |timers|
      ensures timers'[u] == timers[u]
    {
      assert timers'[..|timers|][u] == timers[u];
    }
    forall k | k in t'.cbMap
      ensures Pending(t', timers', k)
    {
      if k != key {
        assert Pending(t, timers, k);
      }
    }
    forall u | u in t'.keyOf
      ensures Owns(t', timers', u)
    {
      if u < |timers| {
        assert u in t.keyOf && Owns(t, timers, u);
        if timers[u].bucket.Some? {
          assert t.keyOf[u] != key;
        }
      }
    }
  }

  lemma RegisterMoved(t: Table, timers: seq<Timer>, key: string, id: nat, deadline: int, ids: iset<nat>)
    requires TimersMatch(t, timers) && t.cbMap.Keys !! Processed(t.outcomes)
    requires key !in t.cbMap && key !in Processed(t.outcomes) && id == |timers| + 1
    ensures Moved(t, Registered(t, key, id, deadline), ids)
  {
    forall u | u in t.keyOf
      ensures u != id - 1
    {
      assert Owns(t, timers, u);
    }
  }

  /** Somebody cancels timer `u`: if a request waits for it, the request is an orphan. */
  function Orphaned(t: Table, timers: seq<Timer>, u: nat): Table
    requires u < |timers|
  {
    if u in t.keyOf && timers[u].bucket.Some? then t.(orphans := t.orphans + {t.keyOf[u]}) else t
  }

  lemma OrphanMatch(t: Table, timers: seq<Timer>, u: nat, ids: iset<nat>)
    requires TimersMatch(t, timers) && u < |timers| && u + 1 in ids && t.cbMap.Keys !! Processed(t.outcomes)
    ensures TimersMatch(Orphaned(t, timers, u), timers[u := timers[u].(bucket := None)])
    ensures Moved(t, Orphaned(t, timers, u), ids)
  {
    var t', timers' := Orphaned(t, timers, u), timers[u := timers[u].(bucket := None)];
    if u in t.keyOf {
      assert Owns(t, timers, u);
    }
    forall k | k in t'.cbMap
      ensures Pending(t', timers', k)
    {
      assert Pending(t, timers, k);
    }
    forall v | v in t'.keyOf
      ensures Owns(t', timers', v)
    {
      assert Owns(t, timers, v);
    }
  }

  /** The table without the request, which was processed. */
  function Taken(t: Table, key: string, timedOut: bool): Table
    requires key in t.cbMap && t.cbMap[key] > 0
  {
    t.(cbMap := t.cbMap - {key}, orphans := t.orphans - {key},
       outcomes := t.outcomes + [Outcome(key, timedOut, t.cbMap[key] - 1)])
  }

  lemma TakenMatch(t: Table, timers: seq<Timer>, key: string, timedOut: bool)
    requires TimersMatch(t, timers) && key in t.cbMap && 0 < t.cbMap[key] <= |timers|
    ensures
      var u := t.cbMap[key] - 1;
      TimersMatch(Taken(t, key, timedOut), timers[u := timers[u].(bucket := None)])
  {
    var u := t.cbMap[key] - 1;
    var t', timers' := Taken(t, key, timedOut), timers[u := timers[u].(bucket := None)];
    assert Pending(t, timers, key);
    forall k | k in t'.cbMap
      ensures Pending(t', timers', k)
    {
      assert Pending(t, timers, k);
    }
    forall v | v in t'.keyOf
      ensures Owns(t', timers', v)
    {
      assert Owns(t, timers, v);
    }
  }

  lemma TakenProcessed(t: Table, key: string, timedOut: bool)
    requires key in t.cbMap && t.cbMap[key] > 0
    ensures
      var after := Taken(t, key, timedOut).outcomes;
      Processed(after) == Processed(t.outcomes) + {key}
  {
    var after := Taken(t, key, timedOut).outcomes;
    assert after[|t.outcomes|].key == key;
    forall o | o in t.outcomes
      ensures o in after
    {
    }
  }

  lemma TakenKeys(t: Table, key: string, timedOut: bool, serverId: nat, tag: nat, max: nat, ids: iset<nat>)
    requires KeysOk(t, serverId, tag, max) && key in t.cbMap && t.cbMap[key] > 0
    ensures KeysOk(Taken(t, key, timedOut), serverId, tag, max) && Moved(t, Taken(t, key, timedOut), ids)
    ensures key in Processed(Taken(t, key, timedOut).outcomes)
  {
    TakenProcessed(t, key, timedOut);
    TakenKeysOk(t, key, timedOut, serverId, tag, max);
    assert t.cbMap.Keys !! Processed(t.outcomes);
    hide KeysOk, Processed, Moved;
    TakenMoved(t, key, timedOut, ids);
  }

  lemma TakenMoved(t: Table, key: string, timedOut: bool, ids: iset<nat>)
    requires key in t.cbMap && t.cbMap[key] > 0 && t.cbMap.Keys !! Processed(t.outcomes)
    requires Processed(Taken(t, key, timedOut).outcomes) == Processed(t.outcomes) + {key}
    ensures Moved(t, Taken(t, key, timedOut), ids)
  {
    hide Processed;
  }

  lemma TakenKeysOk(t: Table, key: string, timedOut: bool, serverId: nat, tag: nat, max: nat)
    requires KeysOk(t, serverId, tag, max) && key in t.cbMap && t.cbMap[key] > 0
    requires Processed(Taken(t, key, timedOut).outcomes) == Processed(t.outcomes) + {key}
    ensures KeysOk(Taken(t, key, timedOut), serverId, tag, max)
  {
    hide Counted, Processed, OnceEach;
    assert SentWith(t, key, t.cbMap[key] - 1);
    TakenOnce(t, key, timedOut);
    TakenRequests(t, key, timedOut, serverId, tag, max);
  }

  lemma TakenRequests(t: Table, key: string, timedOut: bool, serverId: nat, tag: nat, max: nat)
    requires RequestsOk(t, serverId, tag, max) && key in t.cbMap && t.cbMap[key] > 0
    requires Processed(Taken(t, key, timedOut).outcomes) == Processed(t.outcomes) + {key}
    ensures RequestsOk(Taken(t, key, timedOut), serverId, tag, max)
  {
    hide Counted, Processed, OneTimerEach;
    var t' := Taken(t, key, timedOut);
    forall u | u in t'.keyOf
      ensures t'.keyOf[u] in t'.cbMap || t'.keyOf[u] in Processed(t'.outcomes)
    {
    }
    forall k | k in t'.cbMap
      ensures t'.cbMap[k] > 0 && SentWith(t', k, t'.cbMap[k] - 1)
    {
      assert SentWith(t, k, t.cbMap[k] - 1);
    }
    hide SentWith;
  }

  lemma TakenOnce(t: Table, key: string, timedOut: bool)
    requires OnceEach(t) && key in t.cbMap && t.cbMap[key] > 0 && SentWith(t, key, t.cbMap[key] - 1)
    requires Processed(Taken(t, key, timedOut).outcomes) == Processed(t.outcomes) + {key}
    ensures OnceEach(Taken(t, key, timedOut))
  {
    forall i | 0 <= i < |t.outcomes|
      ensures t.outcomes[i].key != key
    {
      assert t.outcomes[i] in t.outcomes && t.outcomes[i].key in Processed(t.outcomes);
    }
    hide Processed;
  }

  /** Pending and never processed, or not pending and processed exactly once. */
  ghost predicate OncePlaced(key: string, t: Table) {
    if key in t.cbMap then forall i :: 0 <= i < |t.outcomes| ==> t.outcomes[i].key != key
    else exists i :: 0 <= i < |t.outcomes| && t.outcomes[i].key == key
                     && forall j :: 0 <= j < |t.outcomes| && t.outcomes[j].key == key ==> j == i
  }

  /** Every request ever sent is pending or was processed, once. */
  lemma Placed(t: Table, serverId: nat, tag: nat, max: nat)
    requires KeysOk(t, serverId, tag, max)
    ensures forall key :: key in t.Used() ==> OncePlaced(key, t)
  {
    hide Counted;
    forall key | key in t.Used()
      ensures OncePlaced(key, t)
    {
      var u :| u in t.keyOf && t.keyOf[u] == key;
      if key in t.cbMap {
        forall i | 0 <= i < |t.outcomes|
          ensures t.outcomes[i].key != key
        {
          assert t.outcomes[i] in t.outcomes && t.outcomes[i].key in Processed(t.outcomes);
        }
      } else {
        var o :| o in t.outcomes && o.key == key;
        var i :| 0 <= i < |t.outcomes| && t.outcomes[i] == o;
      }
    }
  }
}
