/** Everything that happens to entities from outside, and whole runs of it: scripts and the
    network create, bind, unbind and destroy entities, timers run, and saves are confirmed.
    Script callbacks of an entity do nothing to entities. */
module EntityRuns {
  import opened Common
  import opened Entities

  /** `order` is the order in which a loop visited the ids of an index. */
  datatype Event =
    | CreateEntity(id: nat, hasClient: bool, persistent: bool, ok: bool, now: int)
    | UpdateConn(mb: Mailbox, id: nat, primary: bool)
    | RemoveConn(mb: Mailbox, order: seq<nat>)
    | RemoveGate(gate: string, order: seq<nat>)
    | DestroyEntity(id: nat, isSaveDB: bool, immediately: bool, now: int, saveOk: bool)
    | Fire(timer: nat, now: int, expired: bool, repeats: bool, saveOk: bool)
    | Saved(id: nat)
    | AddScriptTimer(id: nat)
    | CancelScriptTimer(id: nat, timer: nat)

  const NEW := Entity(Create, false, false, None, 0, 0, 0, {}, 0)

  /** A new entity is registered; if its set-up fails it is destroyed at once. */
  function Created(s: Game, id: nat, hasClient: bool, persistent: bool, ok: bool, now: int): Game {
    var x := NEW.(hasClient := hasClient, persistent := persistent);
    var s1 := s.(entities := s.entities[id := x], registered := s.registered + {id});
    if ok then Put(s1, id, x.(status := Ready)) else Destroy(s1, id, false, true, now, false)
  }

  /** The index is updated before the entity is asked. */
  function Updated(s: Game, mb: Mailbox, id: nat, primary: bool): Game {
    if id !in s.registered || id !in s.entities || !s.entities[id].hasClient then s
    else SetClient(s.(connMap := List(s.connMap, mb, id)), id, Some(mb), primary)
  }

  predicate Holds(s: Game, e: nat, mb: Mailbox) {
    e in s.entities && s.entities[e].client.Some? && s.entities[e].client.value.mailbox == mb
  }

  /** One entity of a loop loses its client: if it exists and, given `mb`, holds it. */
  function DropOne(s: Game, e: nat, mb: Option<Mailbox>): Game {
    if e in s.registered && e in s.entities && (mb.Some? ==> Holds(s, e, mb.value)) then SetClient(s, e, None, false) else s
  }

  function DropAll(s: Game, order: seq<nat>, mb: Option<Mailbox>): Game {
    if order == [] then s else DropOne(DropAll(s, order[..|order| - 1], mb), order[|order| - 1], mb)
  }

  function Unlist(connMap: map<string, map<nat, set<nat>>>, mb: Mailbox): map<string, map<nat, set<nat>>> {
    if mb.gate in connMap then connMap[mb.gate := connMap[mb.gate] - {mb.client}] else connMap
  }

  function ConnRemoved(s: Game, mb: Mailbox, order: seq<nat>): Game {
    var s1 := DropAll(s, order, Some(mb));
    s1.(connMap := Unlist(s1.connMap, mb))
  }

  /** The gate's link is down when its entities are unbound. */
  function GateRemoved(s: Game, gate: string, order: seq<nat>): Game {
    var s1 := DropAll(s.(up := s.up - {gate}), order, None);
    s1.(connMap := s1.connMap - {gate})
  }

  function TimerFired(s: Game, id: nat, now: int, expired: bool, repeats: bool, saveOk: bool): Game {
    if id !in s.timers then s
    else
      var e := s.timers[id].entity;
      if e !in s.entities then s
      else
        var x := s.entities[e];
        match s.timers[id].kind
        case SaveTimer => Put(s, e, x.(saveTimerId := 0))
        case DestroyTimer => Destroy(Put(CancelTimer(s, id), e, x.(destroyTimerId := 0)), e, true, true, now, saveOk)
        case HeartbeatTimer => if expired then SetClient(s, e, None, false) else s
        case ScriptTimer =>
          var y := if e in s.registered then x.(activeTimerIds := x.activeTimerIds - {id}) else x;
          Put(if repeats then s else CancelTimer(s, id), e, y)
  }

  function SaveConfirmed(s: Game, id: nat): Game {
    if id in s.registered && id in s.entities then Final(s, id) else s
  }

  function ScriptTimerAdded(s: Game, e: nat): Game {
    if e in s.registered && e in s.entities then
      var id, x := s.lastTimer + 1, s.entities[e];
      Put(StartTimer(s, e, ScriptTimer), e, x.(activeTimerIds := x.activeTimerIds + {id}))
    else s
  }

  function ScriptTimerCancelled(s: Game, e: nat, id: nat): Game {
    if e in s.registered && e in s.entities then
      Put(CancelTimer(s, id), e, s.entities[e].(activeTimerIds := s.entities[e].activeTimerIds - {id}))
    else s
  }

  /** What can happen: ids are never reused, and loops visit what the index lists. */
  ghost predicate Possible(s: Game, ev: Event) {
    match ev
    case CreateEntity(id, _, _, _, _) => id != 0 && id !in s.entities
    case RemoveConn(mb, order) => forall e :: e in order <==> e in ListedAt(s.connMap, mb)
    case RemoveGate(gate, order) => forall e :: e in order <==> exists client :: e in ListedAt(s.connMap, Mailbox(gate, client))
    case DestroyEntity(id, _, _, _, _) => id in s.entities
    case Fire(timer, _, _, _, _) => timer in s.timers
    case Saved(id) => id in s.saving
    case _ => true
  }

  function Apply(s: Game, ev: Event): Game {
    match ev
    case CreateEntity(id, hasClient, persistent, ok, now) => Created(s, id, hasClient, persistent, ok, now)
    case UpdateConn(mb, id, primary) => Updated(s, mb, id, primary)
    case RemoveConn(mb, order) => ConnRemoved(s, mb, order)
    case RemoveGate(gate, order) => GateRemoved(s, gate, order)
    case DestroyEntity(id, isSaveDB, immediately, now, saveOk) =>
      if id in s.entities then Destroy(s, id, isSaveDB, immediately, now, saveOk) else s
    case Fire(timer, now, expired, repeats, saveOk) => TimerFired(s, timer, now, expired, repeats, saveOk)
    case Saved(id) => SaveConfirmed(s, id)
    case AddScriptTimer(id) => ScriptTimerAdded(s, id)
    case CancelScriptTimer(id, timer) => ScriptTimerCancelled(s, id, timer)
  }

  // ---------------------------------------------------------------- each event keeps the invariant

  lemma CreatedKeeps(s: Game, id: nat, hasClient: bool, persistent: bool, ok: bool, now: int)
    requires Inv(s) && id !in s.entities
    ensures Inv(Created(s, id, hasClient, persistent, ok, now)) && Rises(s, Created(s, id, hasClient, persistent, ok, now))
    ensures
      var s' := Created(s, id, hasClient, persistent, ok, now);
      id in s'.entities && (id in s'.registered <==> ok)
      && (ok ==> s'.entities[id] == Entity(Ready, hasClient, persistent, None, 0, 0, 0, {}, 0))
      && (!ok ==> s'.entities[id].status == Destroyed)
  {
    hide Inv, Rises, Destroy;
    var x := NEW.(hasClient := hasClient, persistent := persistent);
    var s1 := s.(entities := s.entities[id := x], registered := s.registered + {id});
    FreshOk(s, s1, id);
    if ok {
      FreshOk(s, Put(s1, id, x.(status := Ready)), id);
    } else {
      DestroyKeeps(s1, id, false, true, now, false);
      FailedOutcome(s1, id, false, true, now, false);
      RisesTrans(s, s1, Destroy(s1, id, false, true, now, false));
    }
  }

  lemma FreshOk(s: Game, s1: Game, id: nat)
    requires Inv(s) && id !in s.entities
    requires s1.entities.Keys == s.entities.Keys + {id} && s1.registered == s.registered + {id}
    requires forall d :: d in s.entities ==> s1.entities[d] == s.entities[d]
    requires s1.timers == s.timers && s1.lastTimer == s.lastTimer && s1.connMap == s.connMap && s1.saving == s.saving
    requires s1.finals == s.finals && s1.up == s.up
    requires var x := s1.entities[id]; x.client == None && x.heartbeatTimerId == 0 && Rank(x.status) <= Rank(Ready)
    ensures Inv(s1) && Rises(s, s1)
  {
    hide NoTimers;
    forall d | d in s1.entities
      ensures EntityOk(s1.entities[d], d, s1.timers)
    {
      if d != id {
        assert EntityOk(s.entities[d], d, s.timers);
      }
    }
  }

  lemma UpdatedKeeps(s: Game, mb: Mailbox, id: nat, primary: bool)
    requires Inv(s)
    ensures Inv(Updated(s, mb, id, primary)) && Rises(s, Updated(s, mb, id, primary))
  {
    if id in s.registered && s.entities[id].hasClient {
      var s1 := s.(connMap := List(s.connMap, mb, id));
      ListKeeps(s, mb, id);
      SetClientKeeps(s1, id, Some(mb), primary);
      RisesTrans(s, s1, SetClient(s1, id, Some(mb), primary));
    }
  }

  lemma ListKeeps(s: Game, mb: Mailbox, id: nat)
    requires Inv(s)
    ensures
      var s1 := s.(connMap := List(s.connMap, mb, id));
      Inv(s1) && Rises(s, s1) && id in ListedAt(s1.connMap, mb)
  {
    hide EntityOk, Registry;
    var s1 := s.(connMap := List(s.connMap, mb, id));
    assert EntitiesOk(s1);
    assert Registry(s1) by {
      RegistrySame(s, s1);
    }
  }

  lemma RegistrySame(s: Game, s1: Game)
    requires Registry(s) && s1.entities == s.entities && s1.registered == s.registered
    requires s1.saving == s.saving && s1.finals == s.finals
    ensures Registry(s1)
  {
  }

  /** What a loop over `order` does: the clients it names are lost, and nothing else changes. */
  ghost predicate Dropped(s: Game, s': Game, order: seq<nat>, mb: Option<Mailbox>) {
    && s'.entities.Keys == s.entities.Keys && s'.connMap == s.connMap && s'.registered == s.registered
    && s'.up == s.up && s'.saving == s.saving && s'.finals == s.finals
    && (forall d :: d in s.entities ==> s'.entities[d].client == s.entities[d].client || s'.entities[d].client == None)
    && (forall d :: d in s.entities ==> s'.entities[d].persistent == s.entities[d].persistent)
    && (forall d :: d in s.entities && (d !in order || (mb.Some? && !Holds(s, d, mb.value))) ==> s'.entities[d] == s.entities[d])
    && (forall d :: d in order && d in s.registered && d in s.entities ==>
          if mb.None? then s'.entities[d].client == None else !Holds(s', d, mb.value))
  }

  lemma DroppedSelf(s: Game, e: nat, mb: Option<Mailbox>)
    ensures Rises(s, s)
    ensures !(e in s.registered && e in s.entities && (mb.Some? ==> Holds(s, e, mb.value))) ==> Dropped(s, s, [e], mb)
  {
  }

  lemma OnlyDropped(s: Game, s': Game, e: nat, mb: Option<Mailbox>)
    requires Only(s, s', e) && s'.entities[e].client == None && (mb.Some? ==> Holds(s, e, mb.value))
    ensures Dropped(s, s', [e], mb)
  {
  }

  lemma DropOneKeeps(s: Game, e: nat, mb: Option<Mailbox>)
    requires Inv(s)
    ensures Inv(DropOne(s, e, mb)) && Rises(s, DropOne(s, e, mb)) && Dropped(s, DropOne(s, e, mb), [e], mb)
  {
    DroppedSelf(s, e, mb);
    assert e in s.registered ==> e in s.entities;
    hide SetClient, Inv, Accepts, Rises, Dropped, Only;
    if e in s.registered && (mb.Some? ==> Holds(s, e, mb.value)) {
      SetClientKeeps(s, e, None, false);
      OnlyDropped(s, SetClient(s, e, None, false), e, mb);
    }
  }

  lemma DroppedMore(s: Game, s1: Game, s2: Game, first: seq<nat>, last: nat, mb: Option<Mailbox>)
    requires Dropped(s, s1, first, mb) && Dropped(s1, s2, [last], mb)
    ensures Dropped(s, s2, first + [last], mb)
  {
  }

  lemma {:induction false} DropAllKeeps(s: Game, order: seq<nat>, mb: Option<Mailbox>)
    requires Inv(s)
    ensures Inv(DropAll(s, order, mb)) && Rises(s, DropAll(s, order, mb)) && Dropped(s, DropAll(s, order, mb), order, mb)
  {
    if order != [] {
      var first, last := order[..|order| - 1], order[|order| - 1];
      DropAllKeeps(s, first, mb);
      hide Inv, Rises, DropOne, Dropped;
      var s1 := DropAll(s, first, mb);
      DropOneKeeps(s1, last, mb);
      RisesTrans(s, s1, DropOne(s1, last, mb));
      DroppedMore(s, s1, DropOne(s1, last, mb), first, last, mb);
      assert order == first + [last];
    }
  }

  /** A closed client leaves no entity bound to it, and no other client is lost. */
  lemma ConnRemovedKeeps(s: Game, mb: Mailbox, order: seq<nat>)
    requires Inv(s) && Possible(s, RemoveConn(mb, order))
    ensures
      var s' := ConnRemoved(s, mb, order);
      && Inv(s') && Rises(s, s') && ListedAt(s'.connMap, mb) == {}
      && (forall e :: !Holds(s', e, mb))
      && (forall e :: e in s.entities && !Holds(s, e, mb) ==> e in s'.entities && s'.entities[e] == s.entities[e])
  {
    hide Inv, Rises, DropAll, Dropped;
    DropAllKeeps(s, order, Some(mb));
    var s1 := DropAll(s, order, Some(mb));
    NobodyHolds(s, s1, mb, order);
    ConnUnlisted(s1, mb);
    RisesTrans(s, s1, ConnRemoved(s, mb, order));
  }

  lemma NobodyHolds(s: Game, s1: Game, mb: Mailbox, order: seq<nat>)
    requires Inv(s) && Dropped(s, s1, order, Some(mb)) && forall e :: e in order <==> e in ListedAt(s.connMap, mb)
    ensures forall e :: !Holds(s1, e, mb)
    ensures forall e :: e in s.entities && !Holds(s, e, mb) ==> e in s1.entities && s1.entities[e] == s.entities[e]
  {
    hide Inv;
    forall e | e in s1.entities
      ensures !Holds(s1, e, mb)
    {
      if Holds(s1, e, mb) {
        HolderListed(s, e, mb);
        assert false;
      }
    }
  }

  lemma ConnUnlisted(s: Game, mb: Mailbox)
    requires Inv(s) && forall e :: !Holds(s, e, mb)
    ensures var s' := s.(connMap := Unlist(s.connMap, mb)); Inv(s') && Rises(s, s') && ListedAt(s'.connMap, mb) == {} && forall e :: !Holds(s', e, mb)
  {
    hide EntityOk, Registry;
    var s' := s.(connMap := Unlist(s.connMap, mb));
    forall e | e in s.entities && s.entities[e].client.Some?
      ensures s.entities[e].client.value.mailbox != mb
    {
      assert !Holds(s, e, mb);
    }
    assert EntitiesOk(s');
    RegistrySame(s, s');
    forall e
      ensures !Holds(s', e, mb)
    {
      assert !Holds(s, e, mb);
    }
  }

  /** The index after an entity is listed, and after a client or a gate is struck from it. */
  lemma IndexAfter(connMap: map<string, map<nat, set<nat>>>, mb: Mailbox, e: nat, m: Mailbox)
    ensures ListedAt(List(connMap, mb, e), m) == if m == mb then ListedAt(connMap, m) + {e} else ListedAt(connMap, m)
    ensures ListedAt(Unlist(connMap, mb), m) == if m == mb then {} else ListedAt(connMap, m)
    ensures ListedAt(connMap - {mb.gate}, m) == if m.gate == mb.gate then {} else ListedAt(connMap, m)
  {
  }

  /** Whoever holds a mailbox is registered and listed under it. */
  lemma HolderListed(s: Game, e: nat, mb: Mailbox)
    requires Inv(s) && Holds(s, e, mb)
    ensures e in s.registered && e in ListedAt(s.connMap, mb)
  {
    assert EntityOk(s.entities[e], e, s.timers);
  }

  /** `e` is in the gate's part of the index, under whichever client. */
  ghost predicate ListedUnder(s: Game, gate: string, e: nat) {
    exists client :: e in ListedAt(s.connMap, Mailbox(gate, client))
  }

  /** A lost gate leaves no entity bound to a client of it. Exactly the entities listed under
      the gate lose their client, be it one of another gate. */
  lemma GateRemovedKeeps(s: Game, gate: string, order: seq<nat>)
    requires Inv(s) && Possible(s, RemoveGate(gate, order))
    ensures
      var s' := GateRemoved(s, gate, order);
      && Inv(s') && Rises(s, s') && gate !in s'.connMap && gate !in s'.up
      && (forall e, client :: !Holds(s', e, Mailbox(gate, client)))
      && s'.entities.Keys == s.entities.Keys
      && (forall e :: e in s.entities && ListedUnder(s, gate, e) ==> s'.entities[e].client == None)
      && (forall e :: e in s.entities && !ListedUnder(s, gate, e) ==> s'.entities[e] == s.entities[e])
  {
    hide Inv, Rises, DropAll, Dropped;
    var s0 := s.(up := s.up - {gate});
    DownKeeps(s, gate);
    DropAllKeeps(s0, order, None);
    var s1 := DropAll(s0, order, None);
    HoldersGone(s0, s1, gate, order);
    GateUnlisted(s1, gate);
    ListedLose(s0, s1, order);
    RisesTrans(s, s0, s1);
    RisesTrans(s, s1, GateRemoved(s, gate, order));
  }

  lemma HoldersGone(s: Game, s1: Game, gate: string, order: seq<nat>)
    requires Inv(s) && Possible(s, RemoveGate(gate, order)) && Dropped(s, s1, order, None)
    ensures forall e :: e in s1.entities && s1.entities[e].client.Some? ==> s1.entities[e].client.value.mailbox.gate != gate
  {
    hide Inv, Dropped, Possible;
    forall e | e in s1.entities && s1.entities[e].client.Some?
      ensures s1.entities[e].client.value.mailbox.gate != gate
    {
      GateHolder(s, s1, gate, order, e);
    }
  }

  lemma ListedLose(s: Game, s1: Game, order: seq<nat>)
    requires Inv(s) && Dropped(s, s1, order, None)
    ensures s1.entities.Keys == s.entities.Keys && s1.connMap == s.connMap && s1.up == s.up
    ensures forall e :: e in s.entities && e in order ==> s1.entities[e].client == None
    ensures forall e :: e in s.entities && e !in order ==> s1.entities[e] == s.entities[e]
  {
    forall e | e in s.entities && e in order
      ensures s1.entities[e].client == None
    {
      if s.entities[e].client.Some? {
        HolderListed(s, e, s.entities[e].client.value.mailbox);
      }
    }
  }

  /** An entity that has moved from a client of one gate to one of another loses the new client
      when the old gate goes down. */
  lemma LostThroughStale(s: Game, e: nat, a: Mailbox, b: Mailbox, primary: bool, order: seq<nat>)
    requires Inv(s) && e in s.registered && e in s.entities && s.entities[e].hasClient && s.entities[e].status == Ready && a.gate != b.gate
    requires Possible(Updated(Updated(s, a, e, primary), b, e, primary), RemoveGate(a.gate, order))
    ensures
      var s2 := Updated(Updated(s, a, e, primary), b, e, primary);
      var s3 := GateRemoved(s2, a.gate, order);
      Holds(s2, e, b) && e in s3.entities && s3.entities[e].client == None
  {
    hide Inv, Updated, GateRemoved, Rises;
    var s1 := Updated(s, a, e, primary);
    var s2 := Updated(s1, b, e, primary);
    UpdatedHolds(s, a, e, primary);
    UpdatedHolds(s1, b, e, primary);
    assert e in ListedAt(s2.connMap, a);
    GateRemovedKeeps(s2, a.gate, order);
  }

  lemma UpdatedHolds(s: Game, mb: Mailbox, e: nat, primary: bool)
    requires Inv(s) && e in s.registered && e in s.entities && s.entities[e].hasClient && s.entities[e].status == Ready
    ensures
      var s' := Updated(s, mb, e, primary);
      && Inv(s') && e in s'.registered && e in s'.entities && s'.entities[e].hasClient && s'.entities[e].status == Ready
      && s'.entities[e].client == Some(EntityClient(mb, primary)) && s'.connMap == List(s.connMap, mb, e)
  {
    hide Inv, Rises, SetClient, List;
    var s1 := s.(connMap := List(s.connMap, mb, e));
    ListKeeps(s, mb, e);
    SetClientKeeps(s1, e, Some(mb), primary);
  }

  lemma GateUnlisted(s: Game, gate: string)
    requires Inv(s) && forall e :: e in s.entities && s.entities[e].client.Some? ==> s.entities[e].client.value.mailbox.gate != gate
    ensures var s' := s.(connMap := s.connMap - {gate}); Inv(s') && Rises(s, s')
  {
    hide EntityOk, Registry;
    var s' := s.(connMap := s.connMap - {gate});
    assert EntitiesOk(s');
    RegistrySame(s, s');
  }

  lemma DownKeeps(s: Game, gate: string)
    requires Inv(s)
    ensures Inv(s.(up := s.up - {gate})) && Rises(s, s.(up := s.up - {gate}))
  {
    hide EntityOk;
    assert EntitiesOk(s.(up := s.up - {gate}));
  }

  lemma GateHolder(s: Game, s1: Game, gate: string, order: seq<nat>, e: nat)
    requires Inv(s) && Possible(s, RemoveGate(gate, order)) && Dropped(s, s1, order, None)
    requires e in s1.entities && s1.entities[e].client.Some?
    ensures s1.entities[e].client.value.mailbox.gate != gate
  {
    var mb := s.entities[e].client.value.mailbox;
    HolderListed(s, e, mb);
    hide Inv, EntityOk;
  }

  /** The entity's timers changed, but not its status, client or heartbeat timer. */
  ghost predicate Tweak(x: Entity, y: Entity) {
    && y.status == x.status && y.client == x.client && y.heartbeatTimerId == x.heartbeatTimerId
    && (y.destroyTimerId == x.destroyTimerId || y.destroyTimerId == 0)
  }

  lemma TweakKeeps(s: Game, s': Game, e: nat)
    requires Inv(s) && Only(s, s', e) && PartOk(s', e) && Tweak(s.entities[e], s'.entities[e])
    requires NoTimers(e, s.timers) ==> NoTimers(e, s'.timers)
    ensures Inv(s') && Rises(s, s')
  {
    hide NoTimers, TimersKnown, TimersOk;
    assert EntityOk(s.entities[e], e, s.timers);
    PartBack(s', e);
    OthersOk(s, s', e);
  }

  lemma TimerFiredKeeps(s: Game, id: nat, now: int, expired: bool, repeats: bool, saveOk: bool)
    requires Inv(s) && id in s.timers
    ensures
      var s' := TimerFired(s, id, now, expired, repeats, saveOk);
      && Inv(s') && Rises(s, s')
      && (s.timers[id].kind == DestroyTimer ==>
            var e := s.timers[id].entity;
            e in s'.entities && Rank(s'.entities[e].status) >= Rank(Destroying) && NoTimers(e, s'.timers))
  {
    var e := s.timers[id].entity;
    PartOf(s, e);
    RisesSelf(s);
    var x := s.entities[e];
    match s.timers[id].kind {
      case SaveTimer =>
        SaveFiredKeeps(s, e);
      case HeartbeatTimer =>
        hide Inv, Rises, SetClient, PartOk;
        SetClientKeeps(s, e, None, false);
      case ScriptTimer =>
        hide Inv, Rises, PartOk;
        ScriptFiredKeeps(s, e, id, if e in s.registered then x.(activeTimerIds := x.activeTimerIds - {id}) else x);
      case DestroyTimer =>
        hide Inv, Rises, PartOk, Destroy, NoTimers;
        var s1 := Put(CancelTimer(s, id), e, x.(destroyTimerId := 0));
        DestroyFired(s, e, id);
        DestroyKeeps(s1, e, true, true, now, saveOk);
        RisesTrans(s, s1, Destroy(s1, e, true, true, now, saveOk));
    }
  }

  /** A client that has been silent for too long is lost with the heartbeat timer, and its entity
      is to be destroyed later if it is persistent; a timer of another kind takes no client. */
  lemma SilentClient(s: Game, id: nat, now: int, expired: bool, repeats: bool, saveOk: bool)
    requires Inv(s) && IdsOk(s) && id in s.timers && s.timers[id].kind == HeartbeatTimer
    ensures
      var s', e := TimerFired(s, id, now, expired, repeats, saveOk), s.timers[id].entity;
      && e in s.entities && s.entities[e].client.Some? && e in s'.entities
      && (!expired ==> s' == s)
      && (expired ==> s'.entities[e].client == None && id !in s'.timers)
      && (expired && s.entities[e].persistent ==> ArmedAs(s', s'.entities[e].destroyTimerId, e, DestroyTimer))
  {
    var e := s.timers[id].entity;
    assert EntityOk(s.entities[e], e, s.timers);
    hide Inv, SetClient;
    if expired {
      SetClientKeeps(s, e, None, false);
      SetClientTimers(s, e, None, false);
    }
  }

  lemma SaveFiredKeeps(s: Game, e: nat)
    requires Inv(s) && e in s.entities
    ensures var s' := Put(s, e, s.entities[e].(saveTimerId := 0)); Inv(s') && Rises(s, s')
  {
    PartOf(s, e);
    var s' := Put(s, e, s.entities[e].(saveTimerId := 0));
    SameTimers(s.entities[e], s'.entities[e], e, s.timers);
    hide Inv, NoTimers, TimersKnown, Rises;
    TweakKeeps(s, s', e);
  }

  lemma DestroyFired(s: Game, e: nat, id: nat)
    requires Inv(s) && id in s.timers && s.timers[id] == Owner(e, DestroyTimer) && e in s.entities
    ensures var s1 := Put(CancelTimer(s, id), e, s.entities[e].(destroyTimerId := 0)); Inv(s1) && Rises(s, s1)
  {
    PartOf(s, e);
    var s1 := Put(CancelTimer(s, id), e, s.entities[e].(destroyTimerId := 0));
    hide Inv, Rises, Only;
    DropOk(s, e, id, s1.entities[e]);
    hide PartOk, NoTimers;
    TweakKeeps(s, s1, e);
  }

  lemma RisesSelf(s: Game)
    ensures Rises(s, s)
  {
  }

  lemma ScriptLess(x: Entity, y: Entity, e: nat, timers: map<nat, Owner>, id: nat)
    requires TimersKnown(x, e, timers) && x.activeTimerIds - {id} <= y.activeTimerIds
    requires y.destroyTimerId == x.destroyTimerId && y.heartbeatTimerId == x.heartbeatTimerId
    requires id in timers && timers[id].kind == ScriptTimer
    ensures TimersKnown(y, e, timers) && TimersKnown(y, e, timers - {id})
  {
  }

  lemma ScriptFiredKeeps(s: Game, e: nat, id: nat, y: Entity)
    requires Inv(s) && id in s.timers && s.timers[id] == Owner(e, ScriptTimer) && e in s.entities
    requires y == s.entities[e] || y == s.entities[e].(activeTimerIds := s.entities[e].activeTimerIds - {id})
    ensures Inv(Put(s, e, y)) && Rises(s, Put(s, e, y))
    ensures Inv(Put(CancelTimer(s, id), e, y)) && Rises(s, Put(CancelTimer(s, id), e, y))
  {
    PartOf(s, e);
    ScriptLess(s.entities[e], y, e, s.timers, id);
    hide Inv, Rises, Only, TimersKnown, NoTimers;
    PutOk(s, e, y);
    DropOk(s, e, id, y);
    hide PartOk;
    TweakKeeps(s, Put(s, e, y), e);
    TweakKeeps(s, Put(CancelTimer(s, id), e, y), e);
  }

  /** A script's timer is armed and listed with its entity until the script cancels it. */
  lemma ScriptTimers(s: Game, e: nat, id: nat)
    requires e in s.registered && e in s.entities
    ensures
      var s', x := ScriptTimerAdded(s, e), s.entities[e];
      ArmedAs(s', s.lastTimer + 1, e, ScriptTimer) && s'.entities[e] == x.(activeTimerIds := x.activeTimerIds + {s.lastTimer + 1})
    ensures
      var s', x := ScriptTimerCancelled(s, e, id), s.entities[e];
      id !in s'.timers && s'.entities[e] == x.(activeTimerIds := x.activeTimerIds - {id})
  {
  }

  lemma ScriptTimerAddedKeeps(s: Game, e: nat)
    requires Inv(s)
    ensures Inv(ScriptTimerAdded(s, e)) && Rises(s, ScriptTimerAdded(s, e))
  {
    RisesSelf(s);
    if e in s.registered {
      PartOf(s, e);
      var x, s1 := s.entities[e], ScriptTimerAdded(s, e);
      MoreKnown(x, s1.entities[e], e, s.timers);
      StartOk(s, e, ScriptTimer, s1.entities[e]);
      assert NoTimers(e, s.timers) ==> NoTimers(e, s1.timers);
      hide Inv, PartOk, Rises, Only, NoTimers;
      TweakKeeps(s, s1, e);
    }
  }

  lemma ScriptTimerCancelledKeeps(s: Game, e: nat, id: nat)
    requires Inv(s)
    ensures Inv(ScriptTimerCancelled(s, e, id)) && Rises(s, ScriptTimerCancelled(s, e, id))
  {
    RisesSelf(s);
    if e in s.registered {
      PartOf(s, e);
      var s1 := ScriptTimerCancelled(s, e, id);
      hide Inv, Rises, Only;
      DropOk(s, e, id, s1.entities[e]);
      hide PartOk, NoTimers;
      TweakKeeps(s, s1, e);
    }
  }

  lemma SaveConfirmedKeeps(s: Game, id: nat)
    requires Inv(s) && id in s.saving
    ensures Inv(SaveConfirmed(s, id)) && Rises(s, SaveConfirmed(s, id))
  {
    RisesSelf(s);
    if id in s.registered {
      assert EntityOk(s.entities[id], id, s.timers);
      FinalKeeps(s, id);
    }
  }

  lemma ApplyKeeps(s: Game, ev: Event)
    requires Inv(s) && Possible(s, ev)
    ensures Inv(Apply(s, ev)) && Rises(s, Apply(s, ev))
  {
    match ev {
      case CreateEntity(id, hasClient, persistent, ok, now) => CreatedKeeps(s, id, hasClient, persistent, ok, now);
      case UpdateConn(mb, id, primary) => UpdatedKeeps(s, mb, id, primary);
      case RemoveConn(mb, order) => ConnRemovedKeeps(s, mb, order);
      case RemoveGate(gate, order) => GateRemovedKeeps(s, gate, order);
      case DestroyEntity(id, isSaveDB, immediately, now, saveOk) => DestroyKeeps(s, id, isSaveDB, immediately, now, saveOk);
      case Fire(timer, now, expired, repeats, saveOk) => TimerFiredKeeps(s, timer, now, expired, repeats, saveOk);
      case Saved(id) => SaveConfirmedKeeps(s, id);
      case AddScriptTimer(id) => ScriptTimerAddedKeeps(s, id);
      case CancelScriptTimer(id, timer) => ScriptTimerCancelledKeeps(s, id, timer);
    }
  }

  // ---------------------------------------------------------------- timer ids

  /** No entity has a timer id that was not given out yet, before or after. */
  ghost predicate IdsGrow(s: Game, s': Game) {
    IdsOk(s) ==> IdsOk(s') && s.lastTimer <= s'.lastTimer
  }

  lemma OneGrows(s: Game, s': Game, e: nat)
    requires e in s'.entities && IdsOf(s'.entities[e], s'.lastTimer) && s.lastTimer <= s'.lastTimer
    requires s'.entities.Keys == s.entities.Keys + {e}
    requires forall d :: d in s.entities && d != e ==> s'.entities[d] == s.entities[d]
    ensures IdsGrow(s, s')
  {
    if IdsOk(s) {
      forall d | d in s'.entities
        ensures IdsOf(s'.entities[d], s'.lastTimer)
      {
        assert d != e ==> IdsOf(s.entities[d], s.lastTimer);
      }
    }
  }

  lemma SetClientIds(s: Game, e: nat, c: Option<Mailbox>, primary: bool)
    requires Inv(s) && IdsOk(s) && e in s.entities
    ensures
      var s' := SetClient(s, e, c, primary);
      && IdsOf(s'.entities[e], s'.lastTimer) && s.lastTimer <= s'.lastTimer && s'.entities.Keys == s.entities.Keys
      && forall d :: d in s.entities && d != e ==> s'.entities[d] == s.entities[d]
  {
    assert IdsOf(s.entities[e], s.lastTimer) && EntityOk(s.entities[e], e, s.timers);
    PartOf(s, e);
    SetClientParts(s, e, c, primary);
    hide PartOk, Inv, EntityOk;
    if Accepts(s.entities[e], c) && !SameClient(s.entities[e], c) {
      SetClientTimers(s, e, c, primary);
      hide SetClient, IdsOf;
    }
  }

  lemma DropOneIds(s: Game, e: nat, mb: Option<Mailbox>)
    requires Inv(s) && IdsOk(s)
    ensures IdsOk(DropOne(s, e, mb)) && s.lastTimer <= DropOne(s, e, mb).lastTimer
  {
    hide Inv, SetClient, IdsOf;
    if e in s.registered && e in s.entities && (mb.Some? ==> Holds(s, e, mb.value)) {
      SetClientIds(s, e, None, false);
      OneGrows(s, SetClient(s, e, None, false), e);
    }
  }

  lemma DropAllIds(s: Game, order: seq<nat>, mb: Option<Mailbox>)
    requires Inv(s) && IdsOk(s)
    ensures IdsOk(DropAll(s, order, mb)) && s.lastTimer <= DropAll(s, order, mb).lastTimer
  {
    hide Inv, DropOne, Dropped, Rises, IdsOk;
    if order != [] {
      DropAllIds(s, order[..|order| - 1], mb);
      DropAllKeeps(s, order[..|order| - 1], mb);
      DropOneIds(DropAll(s, order[..|order| - 1], mb), order[|order| - 1], mb);
    }
  }

  lemma DestroyIds(s: Game, e: nat, isSaveDB: bool, immediately: bool, now: int, saveOk: bool)
    requires Inv(s) && IdsOk(s) && e in s.entities
    ensures IdsGrow(s, Destroy(s, e, isSaveDB, immediately, now, saveOk))
  {
    var x := s.entities[e];
    assert EntityOk(x, e, s.timers) && IdsOf(x, s.lastTimer);
    if !Ignored(x, now) {
      hide Inv, NoTimers, IdsGrow, StartDestroying;
      match x.status {
        case Create => FailedIds(s, e, isSaveDB, immediately, now, saveOk);
        case Ready => ReadyIds(s, e, isSaveDB, immediately, now, saveOk);
        case Destroying =>
          AgainOutcome(s, e, isSaveDB, immediately, now, saveOk);
          StartIds(s, e, isSaveDB, now, saveOk);
      }
    }
  }

  lemma FailedIds(s: Game, e: nat, isSaveDB: bool, immediately: bool, now: int, saveOk: bool)
    requires IdsOk(s) && e in s.entities && s.entities[e].status == Create
    ensures IdsGrow(s, Destroy(s, e, isSaveDB, immediately, now, saveOk))
  {
    assert IdsOf(s.entities[e], s.lastTimer);
    OneGrows(s, Destroy(s, e, isSaveDB, immediately, now, saveOk), e);
  }

  lemma StartIds(s: Game, e: nat, isSaveDB: bool, now: int, saveOk: bool)
    requires e in s.entities && IdsOf(s.entities[e], s.lastTimer)
    ensures IdsGrow(s, StartDestroying(s, e, isSaveDB, now, saveOk))
  {
    OneGrows(s, StartDestroying(s, e, isSaveDB, now, saveOk), e);
  }

  lemma ReadyIds(s: Game, e: nat, isSaveDB: bool, immediately: bool, now: int, saveOk: bool)
    requires Inv(s) && IdsOk(s) && e in s.entities && s.entities[e].status == Ready
    ensures IdsGrow(s, Destroy(s, e, isSaveDB, immediately, now, saveOk))
  {
    UnboundOk(s, e);
    UnboundIds(s, e);
    var s2 := Unbound(s, e);
    NoDestroyTimers(s2, e);
    WithoutDestroyTimerOk(s2, e);
    DestroyOfReady(s, e, isSaveDB, immediately, now, saveOk);
    var s3 := if immediately then WithoutDestroyTimer(s2, e) else s2;
    hide Unbound, WithoutDestroyTimer, PartOk, Inv, Destroy, NoTimers, StartDestroying;
    OneGrows(s, s3, e);
    StartIds(s3, e, isSaveDB, now, saveOk);
  }

  lemma UnboundIds(s: Game, e: nat)
    requires Inv(s) && IdsOk(s) && e in s.entities && s.entities[e].status == Ready
    ensures
      var s2 := Unbound(s, e);
      e in s2.entities && IdsOf(s2.entities[e], s2.lastTimer) && s.lastTimer <= s2.lastTimer
  {
    var s1 := CancelAllTimers(s, e);
    assert EntityOk(s.entities[e], e, s.timers) && IdsOf(s.entities[e], s.lastTimer);
    if s.entities[e].client.Some? {
      GivenUpTimers(s1, e);
      hide Lost, LetGo, Inv;
    }
  }

  /** The destroy timer's turn. */
  lemma DestroyTimerFires(s: Game, id: nat, now: int, expired: bool, repeats: bool, saveOk: bool)
    requires Inv(s) && IdsOk(s) && id in s.timers && s.timers[id].kind == DestroyTimer
    ensures
      var e := s.timers[id].entity;
      e in s.entities &&
      var s1 := Put(CancelTimer(s, id), e, s.entities[e].(destroyTimerId := 0));
      && Inv(s1) && IdsOk(s1) && Rank(s.entities[e].status) <= Rank(Ready) && s.entities[e].client.None?
      && TimerFired(s, id, now, expired, repeats, saveOk) == Destroy(s1, e, true, true, now, saveOk)
  {
    var e := s.timers[id].entity;
    PartOf(s, e);
    assert EntityOk(s.entities[e], e, s.timers) && IdsOf(s.entities[e], s.lastTimer) && ForEntity(s.timers[id], e);
    hide Destroy, Inv, Rises, PartOk, EntityOk;
    DestroyFired(s, e, id);
    OneGrows(s, Put(CancelTimer(s, id), e, s.entities[e].(destroyTimerId := 0)), e);
  }

  lemma TimerFiredIds(s: Game, id: nat, now: int, expired: bool, repeats: bool, saveOk: bool)
    requires Inv(s) && IdsOk(s) && id in s.timers
    ensures IdsOk(TimerFired(s, id, now, expired, repeats, saveOk))
  {
    var e := s.timers[id].entity;
    PartOf(s, e);
    assert IdsOf(s.entities[e], s.lastTimer);
    match s.timers[id].kind {
      case DestroyTimer =>
        hide Inv, Destroy, TimerFired, IdsOk, PartOk;
        DestroyTimerFires(s, id, now, expired, repeats, saveOk);
        DestroyIds(Put(CancelTimer(s, id), e, s.entities[e].(destroyTimerId := 0)), e, true, true, now, saveOk);
      case HeartbeatTimer =>
        hide Inv, SetClient, Destroy, PartOk;
        SetClientIds(s, e, None, false);
        OneGrows(s, SetClient(s, e, None, false), e);
      case _ =>
        hide Inv, Destroy, SetClient, PartOk;
        OneGrows(s, TimerFired(s, id, now, expired, repeats, saveOk), e);
    }
  }

  lemma ApplyIds(s: Game, ev: Event)
    requires Inv(s) && IdsOk(s) && Possible(s, ev)
    ensures IdsOk(Apply(s, ev))
  {
    hide Inv, Destroy, SetClient, TimerFired, DropAll, IdsOf;
    match ev {
      case CreateEntity(id, hasClient, persistent, ok, now) => CreatedIds(s, id, hasClient, persistent, ok, now);
      case UpdateConn(mb, id, primary) =>
        if id in s.registered && id in s.entities && s.entities[id].hasClient {
          var s1 := s.(connMap := List(s.connMap, mb, id));
          ListKeeps(s, mb, id);
          assert IdsOk(s1);
          SetClientIds(s1, id, Some(mb), primary);
          OneGrows(s1, SetClient(s1, id, Some(mb), primary), id);
        }
      case RemoveConn(mb, order) => DropAllIds(s, order, Some(mb));
      case RemoveGate(gate, order) =>
        DownKeeps(s, gate);
        DropAllIds(s.(up := s.up - {gate}), order, None);
      case DestroyEntity(id, isSaveDB, immediately, now, saveOk) =>
        if id in s.entities {
          DestroyIds(s, id, isSaveDB, immediately, now, saveOk);
        }
      case Fire(timer, now, expired, repeats, saveOk) =>
        TimerFiredIds(s, timer, now, expired, repeats, saveOk);
      case _ => ScriptIds(s, ev);
    }
  }

  lemma CreatedIds(s: Game, id: nat, hasClient: bool, persistent: bool, ok: bool, now: int)
    requires Inv(s) && IdsOk(s) && id !in s.entities
    ensures IdsOk(Created(s, id, hasClient, persistent, ok, now))
  {
  }

  lemma ScriptIds(s: Game, ev: Event)
    requires IdsOk(s) && (ev.Saved? || ev.AddScriptTimer? || ev.CancelScriptTimer?)
    ensures IdsOk(Apply(s, ev))
  {
    hide Destroy, SetClient, TimerFired, DropAll;
    if ev.id in s.entities {
      assert IdsOf(s.entities[ev.id], s.lastTimer);
      OneGrows(s, Apply(s, ev), ev.id);
    }
  }

  // ---------------------------------------------------------------- how entities are finalised

  /** The event finalises an entity: its save is confirmed, or it is destroyed without a save
      being asked for or needed, or after a set-up that failed. */
  ghost predicate FinalBy(s: Game, ev: Event, e: nat)
    requires e in s.entities
  {
    var x := s.entities[e];
    match ev
    case Saved(id) => id == e && e in s.registered
    case DestroyEntity(id, isSaveDB, immediately, now, _) =>
      id == e && !Ignored(x, now)
      && (x.status == Create
          || (!(x.client.Some? && x.persistent && !immediately) && !(isSaveDB && x.persistent)))
    case Fire(timer, _, _, _, _) =>
      timer in s.timers && s.timers[timer] == Owner(e, DestroyTimer) && (x.status == Create || !x.persistent)
    case _ => false
  }

  /** An entity enters the list of finalised ones by such an event and by no other. */
  lemma FinalisedIff(s: Game, ev: Event, e: nat)
    requires Inv(s) && IdsOk(s) && Possible(s, ev) && e in s.entities && e !in s.finals
    ensures e in Apply(s, ev).finals <==> FinalBy(s, ev, e)
    ensures e in Apply(s, ev).entities && Apply(s, ev).entities[e].persistent == s.entities[e].persistent
  {
    hide Inv, Destroy, SetClient, DropAll, IdsOk, TimerFired, Created, ArmedAs, Rises;
    match ev {
      case CreateEntity(id, hasClient, persistent, ok, now) => CreatedFinals(s, id, hasClient, persistent, ok, now);
      case UpdateConn(mb, id, primary) =>
        if id in s.registered && id in s.entities && s.entities[id].hasClient {
          ListKeeps(s, mb, id);
          SetClientKeeps(s.(connMap := List(s.connMap, mb, id)), id, Some(mb), primary);
        }
      case RemoveConn(mb, order) => DropAllKeeps(s, order, Some(mb));
      case RemoveGate(gate, order) =>
        DownKeeps(s, gate);
        DropAllKeeps(s.(up := s.up - {gate}), order, None);
      case DestroyEntity(id, isSaveDB, immediately, now, saveOk) => DestroyOutcome(s, id, isSaveDB, immediately, now, saveOk);
      case Fire(timer, now, expired, repeats, saveOk) => TimerFinals(s, timer, now, expired, repeats, saveOk, e);
      case _ =>
    }
  }

  lemma CreatedFinals(s: Game, id: nat, hasClient: bool, persistent: bool, ok: bool, now: int)
    requires id !in s.entities
    ensures
      var s' := Created(s, id, hasClient, persistent, ok, now);
      && s'.finals == (if ok then s.finals else s.finals + [id])
      && forall d :: d in s.entities ==> d in s'.entities && s'.entities[d] == s.entities[d]
  {
  }

  lemma TimerFinals(s: Game, timer: nat, now: int, expired: bool, repeats: bool, saveOk: bool, e: nat)
    requires Inv(s) && IdsOk(s) && timer in s.timers && e in s.entities && e !in s.finals
    ensures
      var s' := TimerFired(s, timer, now, expired, repeats, saveOk);
      && (e in s'.finals <==> s.timers[timer] == Owner(e, DestroyTimer) && (s.entities[e].status == Create || !s.entities[e].persistent))
      && e in s'.entities && s'.entities[e].persistent == s.entities[e].persistent
  {
    hide Inv, IdsOk, TimerFired;
    if s.timers[timer].kind == DestroyTimer {
      DestroyTimerFinals(s, timer, now, expired, repeats, saveOk, e);
    } else {
      OtherTimers(s, timer, now, expired, repeats, saveOk, e);
    }
  }

  lemma DestroyTimerFinals(s: Game, timer: nat, now: int, expired: bool, repeats: bool, saveOk: bool, e: nat)
    requires Inv(s) && IdsOk(s) && timer in s.timers && e in s.entities && e !in s.finals && s.timers[timer].kind == DestroyTimer
    ensures
      var s' := TimerFired(s, timer, now, expired, repeats, saveOk);
      && (e in s'.finals <==> s.timers[timer].entity == e && (s.entities[e].status == Create || !s.entities[e].persistent))
      && e in s'.entities && s'.entities[e].persistent == s.entities[e].persistent
  {
    hide Inv, Destroy, TimerFired, IdsOk, ArmedAs;
    var d := s.timers[timer].entity;
    DestroyTimerFires(s, timer, now, expired, repeats, saveOk);
    DestroyOutcome(Put(CancelTimer(s, timer), d, s.entities[d].(destroyTimerId := 0)), d, true, true, now, saveOk);
  }

  lemma OtherTimers(s: Game, timer: nat, now: int, expired: bool, repeats: bool, saveOk: bool, e: nat)
    requires Inv(s) && timer in s.timers && e in s.entities && s.timers[timer].kind != DestroyTimer
    ensures
      var s' := TimerFired(s, timer, now, expired, repeats, saveOk);
      s'.finals == s.finals && e in s'.entities && s'.entities[e].persistent == s.entities[e].persistent
  {
    var d := s.timers[timer].entity;
    PartOf(s, d);
    hide Inv, Destroy, SetClient, PartOk;
    if s.timers[timer].kind == HeartbeatTimer {
      SetClientKeeps(s, d, None, false);
    }
  }

  // ---------------------------------------------------------------- runs

  function Run(s: Game, events: seq<Event>): Game
    decreases |events|
  {
    if events == [] then s else Run(Apply(s, events[0]), events[1..])
  }

  ghost predicate PossibleRun(s: Game, events: seq<Event>)
    decreases |events|
  {
    events == [] || (Possible(s, events[0]) && PossibleRun(Apply(s, events[0]), events[1..]))
  }

  /** Nothing has happened yet. */
  function Start(gates: set<string>): Game {
    Game(map[], {}, map[], map[], 0, gates, map[], {}, [])
  }

  lemma {:induction false} RunKeeps(s: Game, events: seq<Event>)
    requires Inv(s) && PossibleRun(s, events)
    ensures Inv(Run(s, events)) && Rises(s, Run(s, events))
    decreases |events|
  {
    RisesSelf(s);
    if events != [] {
      ApplyKeeps(s, events[0]);
      hide Inv, Rises, Apply;
      RunKeeps(Apply(s, events[0]), events[1..]);
      RisesTrans(s, Apply(s, events[0]), Run(s, events));
    }
  }

  /** The lifecycle over every run: at every moment a client is held in state Ready only, under a
      mailbox the index lists, and excludes a pending destroy timer; an entity that is being
      destroyed has no save, destroy or heartbeat timer; finalisation happens at most once per
      entity; and from any moment on statuses never fall. */
  lemma Lifecycle(gates: set<string>, events: seq<Event>, n: nat)
    requires PossibleRun(Start(gates), events) && n <= |events|
    ensures
      var s, s' := Run(Start(gates), events[..n]), Run(Start(gates), events);
      && (forall e :: e in s.entities ==> e in s'.entities && Rank(s.entities[e].status) <= Rank(s'.entities[e].status))
      && (forall e :: e in s.entities && s.entities[e].client.Some? ==>
            && s.entities[e].status == Ready && e in s.registered
            && e in ListedAt(s.connMap, s.entities[e].client.value.mailbox)
            && forall id :: id in s.timers ==> s.timers[id] != Owner(e, DestroyTimer))
      && (forall e :: e in s.entities && Rank(s.entities[e].status) >= Rank(Destroying) ==>
            s.entities[e].client == None && NoTimers(e, s.timers))
      && (forall i, j :: 0 <= i < j < |s.finals| ==> s.finals[i] != s.finals[j])
      && (forall e :: e in s.finals ==> e in s.entities && s.entities[e].status == Destroyed)
  {
    var s0 := Start(gates);
    SplitRun(s0, events, n);
    RunKeeps(s0, events[..n]);
    var s := Run(s0, events[..n]);
    RunKeeps(s, events[n..]);
    hide Apply;
    forall e | e in s.entities
      ensures EntityOk(s.entities[e], e, s.timers)
    {
    }
  }

  lemma {:induction false} SplitRun(s: Game, events: seq<Event>, n: nat)
    requires PossibleRun(s, events) && n <= |events|
    ensures PossibleRun(s, events[..n]) && PossibleRun(Run(s, events[..n]), events[n..])
    ensures Run(Run(s, events[..n]), events[n..]) == Run(s, events)
    decreases |events|
  {
    hide Possible, Apply;
    if n == 0 {
      assert events[..0] == [] && events[0..] == events;
    } else {
      SplitRun(Apply(s, events[0]), events[1..], n - 1);
      assert events[..n][0] == events[0] && events[..n][1..] == events[1..][..n - 1];
      assert events[n..] == events[1..][n - 1..];
    }
  }

  lemma {:induction false} RunIds(s: Game, events: seq<Event>)
    requires Inv(s) && IdsOk(s) && PossibleRun(s, events)
    ensures IdsOk(Run(s, events))
    decreases |events|
  {
    if events != [] {
      ApplyKeeps(s, events[0]);
      ApplyIds(s, events[0]);
      hide Inv, IdsOk, Rises, Apply;
      RunIds(Apply(s, events[0]), events[1..]);
    }
  }

  /** Over every run: a persistent entity whose set-up succeeded, and which nobody destroys
      without asking for a save, is finalised only after its save has been confirmed. */
  lemma {:induction false} SavedFirst(s: Game, events: seq<Event>, e: nat)
    requires Inv(s) && IdsOk(s) && PossibleRun(s, events)
    requires e in s.entities && e !in s.finals && s.entities[e].persistent && s.entities[e].status != Create
    requires forall i :: 0 <= i < |events| ==> !(events[i].DestroyEntity? && events[i].id == e && !events[i].isSaveDB)
    ensures e in Run(s, events).finals ==> exists i :: 0 <= i < |events| && events[i] == Saved(e)
    decreases |events|
  {
    if events != [] {
      var s1 := Apply(s, events[0]);
      FinalisedIff(s, events[0], e);
      ApplyKeeps(s, events[0]);
      ApplyIds(s, events[0]);
      hide Inv, IdsOk, Apply, Possible;
      if e in s1.finals {
        assert events[0] == Saved(e);
      } else {
        assert forall i :: 0 <= i < |events[1..]| ==> events[1..][i] == events[i + 1];
        SavedFirst(s1, events[1..], e);
        if i :| 0 <= i < |events[1..]| && events[1..][i] == Saved(e) {
          assert events[i + 1] == Saved(e);
        }
      }
    }
  }

  lemma NothingYetOk(gates: set<string>)
    ensures Inv(Start(gates)) && IdsOk(Start(gates))
  {
  }

  /** The same from any moment of any run that starts with nothing. */
  lemma SavedBeforeFinal(gates: set<string>, events: seq<Event>, n: nat, e: nat)
    requires PossibleRun(Start(gates), events) && n <= |events|
    requires
      var s := Run(Start(gates), events[..n]);
      e in s.entities && e !in s.finals && s.entities[e].persistent && s.entities[e].status != Create
    requires forall i :: n <= i < |events| ==> !(events[i].DestroyEntity? && events[i].id == e && !events[i].isSaveDB)
    ensures e in Run(Start(gates), events).finals ==> exists i :: n <= i < |events| && events[i] == Saved(e)
  {
    hide Inv, IdsOk, Run, PossibleRun, Start, Rises;
    var s0 := Start(gates);
    NothingYetOk(gates);
    SplitRun(s0, events, n);
    RunKeeps(s0, events[..n]);
    RunIds(s0, events[..n]);
    assert forall i :: 0 <= i < |events[n..]| ==> events[n..][i] == events[n + i];
    SavedFirst(Run(s0, events[..n]), events[n..], e);
    if i :| 0 <= i < |events[n..]| && events[n..][i] == Saved(e) {
      assert events[n + i] == Saved(e);
    }
  }
}
