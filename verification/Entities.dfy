/** Entities of a game server: their lifecycle, client and timers, the index of entities by
    connection, and the messages about bindings sent to the gates. Entity objects are values
    indexed by their id; the timer service is the set of timers still armed. */
module Entities {
  import opened Common

  datatype Status = Create | Ready | Destroying | Destroyed

  datatype Mailbox = Mailbox(gate: string, client: nat)

  datatype EntityClient = EntityClient(mailbox: Mailbox, primary: bool)

  /** A timer id of 0 means none. */
  datatype Entity = Entity(
    status: Status, hasClient: bool, persistent: bool, client: Option<EntityClient>,
    destroyTimerId: nat, saveTimerId: nat, heartbeatTimerId: nat, activeTimerIds: set<nat>, destroyingSince: int)

  datatype Kind = SaveTimer | DestroyTimer | HeartbeatTimer | ScriptTimer

  datatype Owner = Owner(entity: nat, kind: Kind)

  /** A message to a gate: the client is bound to the entity, or is no longer. */
  datatype Msg = Bind(client: nat, entity: nat) | Unbind(client: nat, entity: nat)

  /** `up` are the gates whose link is up, `sent` what was written to each gate; `saving` are the
      entities whose final save was requested and `finals` those finalised so far, in order. */
  datatype Game = Game(
    entities: map<nat, Entity>, registered: set<nat>, connMap: map<string, map<nat, set<nat>>>,
    timers: map<nat, Owner>, lastTimer: nat, up: set<string>, sent: map<string, seq<Msg>>,
    saving: set<nat>, finals: seq<nat>)

  function Rank(s: Status): nat {
    match s
    case Create => 0
    case Ready => 1
    case Destroying => 2
    case Destroyed => 3
  }

  // ---------------------------------------------------------------- small steps

  function Put(s: Game, e: nat, x: Entity): Game {
    s.(entities := s.entities[e := x])
  }

  function StartTimer(s: Game, e: nat, kind: Kind): Game {
    s.(timers := s.timers[s.lastTimer + 1 := Owner(e, kind)], lastTimer := s.lastTimer + 1)
  }

  function CancelTimer(s: Game, id: nat): Game {
    s.(timers := s.timers - {id})
  }

  function SentTo(s: Game, gate: string): seq<Msg> {
    if gate in s.sent then s.sent[gate] else []
  }

  /** Nothing is written to a gate whose link is down. */
  function Send(s: Game, gate: string, m: Msg): Game {
    if gate in s.up then s.(sent := s.sent[gate := SentTo(s, gate) + [m]]) else s
  }

  /** The ids listed in the connection index. */
  function ListedAt(connMap: map<string, map<nat, set<nat>>>, mb: Mailbox): set<nat> {
    if mb.gate in connMap && mb.client in connMap[mb.gate] then connMap[mb.gate][mb.client] else {}
  }

  function List(connMap: map<string, map<nat, set<nat>>>, mb: Mailbox, e: nat): map<string, map<nat, set<nat>>> {
    var clients: map<nat, set<nat>> := if mb.gate in connMap then connMap[mb.gate] else map[];
    connMap[mb.gate := clients[mb.client := ListedAt(connMap, mb) + {e}]]
  }

  // ---------------------------------------------------------------- setClient

  /** The entity lets its client go: the gate is told, and an entity that loses its client for
      good is to be destroyed later if it is persistent. */
  function LetGo(s: Game, e: nat, forGood: bool): (r: Game)
    requires e in s.entities && s.entities[e].client.Some?
    ensures e in r.entities
  {
    var x := s.entities[e];
    var mb := x.client.value.mailbox;
    var s1 := Send(s, mb.gate, Unbind(mb.client, e));
    if forGood && x.persistent then
      var id := s.lastTimer + 1;
      Put(StartTimer(s1, e, DestroyTimer), e, x.(destroyTimerId := id, activeTimerIds := x.activeTimerIds + {id}))
    else s1
  }

  function Lost(s: Game, e: nat): (r: Game)
    requires e in s.entities
    ensures e in r.entities
  {
    var x := s.entities[e];
    Put(if x.heartbeatTimerId > 0 then CancelTimer(s, x.heartbeatTimerId) else s, e,
        x.(client := None, heartbeatTimerId := 0))
  }

  /** Adds the heartbeat timer unless there is one. */
  function WithHeartbeat(s: Game, e: nat): (r: Game)
    requires e in s.entities
    ensures e in r.entities
  {
    var x := s.entities[e];
    if x.heartbeatTimerId == 0 then Put(StartTimer(s, e, HeartbeatTimer), e, x.(heartbeatTimerId := s.lastTimer + 1)) else s
  }

  function WithoutDestroyTimer(s: Game, e: nat): (r: Game)
    requires e in s.entities
    ensures e in r.entities
  {
    var x := s.entities[e];
    if x.destroyTimerId > 0 then
      Put(CancelTimer(s, x.destroyTimerId), e,
          x.(destroyTimerId := 0, activeTimerIds := x.activeTimerIds - {x.destroyTimerId}))
    else s
  }

  function WithSaveTimer(s: Game, e: nat): (r: Game)
    requires e in s.entities
    ensures e in r.entities
  {
    var x := s.entities[e];
    if x.persistent && x.saveTimerId == 0 then
      var id := s.lastTimer + 1;
      Put(StartTimer(s, e, SaveTimer), e, x.(saveTimerId := id, activeTimerIds := x.activeTimerIds + {id}))
    else s
  }

  function Gained(s: Game, e: nat, mb: Mailbox, primary: bool): (r: Game)
    requires e in s.entities
    ensures e in r.entities
  {
    var s1 := Put(s, e, s.entities[e].(client := Some(EntityClient(mb, primary))));
    var s2 := if primary then WithHeartbeat(s1, e) else s1;
    var s3 := WithoutDestroyTimer(s2, e);
    WithSaveTimer(Send(s3, mb.gate, Bind(mb.client, e)), e)
  }

  /** May the entity take this client, or give up the one it has? */
  predicate Accepts(x: Entity, c: Option<Mailbox>) {
    (x.status == Ready || c.None?) && x.hasClient
  }

  predicate SameClient(x: Entity, c: Option<Mailbox>) {
    x.client.Some? && c == Some(x.client.value.mailbox)
  }

  function SetClient(s: Game, e: nat, c: Option<Mailbox>, primary: bool): (r: Game)
    requires e in s.entities
    ensures e in r.entities
  {
    var x := s.entities[e];
    if !Accepts(x, c) then s
    else if SameClient(x, c) then Put(s, e, x.(client := Some(x.client.value.(primary := primary))))
    else
      var s1 := if x.client.Some? then LetGo(s, e, c.None?) else s;
      if c.None? then Lost(s1, e) else Gained(s1, e, c.value, primary)
  }

  // ---------------------------------------------------------------- invariant

  predicate ForEntity(o: Owner, e: nat) {
    o.entity == e && o.kind != ScriptTimer
  }

  /** An armed engine timer of `e` is one the entity knows. */
  ghost predicate Known(x: Entity, kind: Kind, id: nat) {
    match kind
    case SaveTimer => id in x.activeTimerIds
    case DestroyTimer => id in x.activeTimerIds && id == x.destroyTimerId
    case HeartbeatTimer => id == x.heartbeatTimerId
    case ScriptTimer => true
  }

  ghost predicate TimersKnown(x: Entity, e: nat, timers: map<nat, Owner>) {
    forall id :: id in timers && timers[id].entity == e ==> Known(x, timers[id].kind, id)
  }

  /** No save, destroy or heartbeat timer of `e` is armed. */
  ghost predicate NoTimers(e: nat, timers: map<nat, Owner>) {
    forall id :: id in timers ==> !ForEntity(timers[id], e)
  }

  /** A client is held in state Ready only and excludes a pending destroy timer; from Destroying
      on there is no client and no timer. */
  ghost predicate EntityOk(x: Entity, e: nat, timers: map<nat, Owner>) {
    && (x.client.Some? ==> x.status == Ready && x.hasClient && x.destroyTimerId == 0)
    && (x.heartbeatTimerId > 0 ==> x.client.Some?)
    && (Rank(x.status) >= Rank(Destroying) ==> x.destroyTimerId == 0 && NoTimers(e, timers))
    && TimersKnown(x, e, timers)
  }

  ghost predicate EntitiesOk(s: Game) {
    forall e :: e in s.entities ==> EntityOk(s.entities[e], e, s.timers)
  }

  ghost predicate TimersOk(timers: map<nat, Owner>, last: nat) {
    forall id :: id in timers ==> 0 < id <= last
  }

  /** Timers belong to entities that exist. */
  ghost predicate OwnersOk(s: Game) {
    forall id :: id in s.timers ==> s.timers[id].entity in s.entities
  }

  ghost predicate Registry(s: Game) {
    && (forall e :: e in s.registered ==> e in s.entities)
    && (forall e :: e in s.entities ==> (e in s.registered <==> s.entities[e].status != Destroyed))
    && (forall e :: e in s.saving ==> e in s.entities && Rank(s.entities[e].status) >= Rank(Destroying))
    && (forall i :: 0 <= i < |s.finals| ==> s.finals[i] in s.entities && s.entities[s.finals[i]].status == Destroyed)
    && (forall i, j :: 0 <= i < j < |s.finals| ==> s.finals[i] != s.finals[j])
  }

  /** Every entity holding a mailbox is listed under it. */
  ghost predicate Listed(s: Game) {
    forall e :: e in s.entities && s.entities[e].client.Some? ==>
      e in ListedAt(s.connMap, s.entities[e].client.value.mailbox)
  }

  ghost predicate Inv(s: Game) {
    EntitiesOk(s) && TimersOk(s.timers, s.lastTimer) && OwnersOk(s) && Registry(s) && Listed(s)
  }

  /** Statuses never fall; finalised entities stay listed as such. */
  ghost predicate Rises(s: Game, s': Game) {
    && (forall e :: e in s.entities ==> e in s'.entities && Rank(s.entities[e].status) <= Rank(s'.entities[e].status))
    && s.finals <= s'.finals && s'.up <= s.up
  }

  lemma RisesTrans(s: Game, s': Game, s'': Game)
    requires Rises(s, s') && Rises(s', s'')
    ensures Rises(s, s'')
  {
  }

  // ---------------------------------------------------------------- one entity at a time

  /** Only entity `e` and its timers change, and `e` keeps its status and kind. */
  ghost predicate Only(s: Game, s': Game, e: nat)
    ensures Only(s, s', e) ==> e in s.entities && e in s'.entities
  {
    && e in s.entities && s'.entities.Keys == s.entities.Keys
    && (forall d :: d in s.entities && d != e ==> s'.entities[d] == s.entities[d])
    && (forall id :: id in s'.timers ==> (id in s.timers && s'.timers[id] == s.timers[id]) || s'.timers[id].entity == e)
    && s'.registered == s.registered && s'.saving == s.saving && s'.finals == s.finals && s'.up == s.up
    && s'.connMap == s.connMap
    && s'.entities[e].persistent == s.entities[e].persistent && s'.entities[e].hasClient == s.entities[e].hasClient
  }

  lemma OnlyTrans(s: Game, s': Game, s'': Game, e: nat)
    requires Only(s, s', e) && Only(s', s'', e)
    ensures Only(s, s'', e)
  {
  }

  lemma OthersOk(s: Game, s': Game, e: nat)
    requires Only(s, s', e) && EntitiesOk(s) && EntityOk(s'.entities[e], e, s'.timers)
    ensures EntitiesOk(s')
  {
    forall d | d in s'.entities && d != e
      ensures EntityOk(s'.entities[d], d, s'.timers)
    {
      assert EntityOk(s.entities[d], d, s.timers);
    }
  }

  /** What each part of setClient keeps of the entity's own timers. */
  ghost predicate PartOk(s: Game, e: nat)
    ensures PartOk(s, e) ==> e in s.entities
  {
    e in s.entities && TimersKnown(s.entities[e], e, s.timers) && TimersOk(s.timers, s.lastTimer)
  }

  /** A new timer that the changed entity knows. */
  lemma StartOk(s: Game, e: nat, kind: Kind, x: Entity)
    requires PartOk(s, e) && x.persistent == s.entities[e].persistent && x.hasClient == s.entities[e].hasClient
    requires Known(x, kind, s.lastTimer + 1)
    requires TimersKnown(x, e, s.timers)
    ensures var s' := Put(StartTimer(s, e, kind), e, x); Only(s, s', e) && PartOk(s', e) && s'.entities[e] == x
  {
    hide Known;
  }

  lemma PutOk(s: Game, e: nat, y: Entity)
    requires PartOk(s, e) && y.persistent == s.entities[e].persistent && y.hasClient == s.entities[e].hasClient
    requires TimersKnown(y, e, s.timers)
    ensures Only(s, Put(s, e, y), e) && PartOk(Put(s, e, y), e)
  {
    hide Known;
  }

  /** A timer that is gone need not be known. */
  lemma DropOk(s: Game, e: nat, id: nat, y: Entity)
    requires PartOk(s, e) && y.persistent == s.entities[e].persistent && y.hasClient == s.entities[e].hasClient
    requires TimersKnown(y, e, s.timers - {id})
    ensures
      var s' := Put(CancelTimer(s, id), e, y);
      Only(s, s', e) && PartOk(s', e) && (NoTimers(e, s.timers) ==> NoTimers(e, s'.timers))
  {
    hide Known;
  }

  lemma MoreKnown(x: Entity, y: Entity, e: nat, timers: map<nat, Owner>)
    requires TimersKnown(x, e, timers) && x.activeTimerIds <= y.activeTimerIds
    requires y.destroyTimerId == x.destroyTimerId && y.heartbeatTimerId == x.heartbeatTimerId
    ensures TimersKnown(y, e, timers)
  {
  }

  lemma LetGoOk(s: Game, e: nat, forGood: bool)
    requires PartOk(s, e) && s.entities[e].client.Some? && s.entities[e].destroyTimerId == 0
    ensures
      var s', x := LetGo(s, e, forGood), s.entities[e];
      && Only(s, s', e) && PartOk(s', e)
      && s'.entities[e] == if forGood && x.persistent
                           then x.(destroyTimerId := s.lastTimer + 1, activeTimerIds := x.activeTimerIds + {s.lastTimer + 1})
                           else x
  {
    var x := s.entities[e];
    var mb, id := x.client.value.mailbox, s.lastTimer + 1;
    var s1, y := Send(s, mb.gate, Unbind(mb.client, e)), x.(destroyTimerId := id, activeTimerIds := x.activeTimerIds + {id});
    SendOk(s, e, mb.gate, Unbind(mb.client, e));
    if forGood && x.persistent {
      assert s1.timers == s.timers && s1.lastTimer == s.lastTimer;
      assert TimersKnown(y, e, s.timers);
      StartOk(s1, e, DestroyTimer, y);
      hide Send, PartOk, Known, Only, Put, StartTimer;
      OnlyTrans(s, s1, Put(StartTimer(s1, e, DestroyTimer), e, y), e);
    }
  }

  lemma LostOk(s: Game, e: nat)
    requires PartOk(s, e)
    ensures
      var s' := Lost(s, e);
      && Only(s, s', e) && PartOk(s', e) && s'.entities[e] == s.entities[e].(client := None, heartbeatTimerId := 0)
      && forall id :: id in s'.timers ==> id in s.timers && s'.timers[id] == s.timers[id]
  {
  }

  lemma WithHeartbeatOk(s: Game, e: nat)
    requires PartOk(s, e)
    ensures
      var s' := WithHeartbeat(s, e);
      && Only(s, s', e) && PartOk(s', e)
      && s'.entities[e] == s.entities[e].(heartbeatTimerId := s'.entities[e].heartbeatTimerId)
  {
    var x := s.entities[e];
    OnlySelf(s, e);
    if x.heartbeatTimerId == 0 {
      var y := x.(heartbeatTimerId := s.lastTimer + 1);
      assert TimersKnown(y, e, s.timers);
      hide PartOk, Known, Only, TimersKnown;
      StartOk(s, e, HeartbeatTimer, y);
    }
  }

  lemma WithoutDestroyTimerOk(s: Game, e: nat)
    requires PartOk(s, e)
    ensures
      var s' := WithoutDestroyTimer(s, e);
      && Only(s, s', e) && PartOk(s', e) && s'.entities[e].destroyTimerId == 0
      && s'.entities[e] == s.entities[e].(destroyTimerId := 0, activeTimerIds := s'.entities[e].activeTimerIds)
      && s'.entities[e].activeTimerIds <= s.entities[e].activeTimerIds
      && (s.entities[e].destroyTimerId > 0 ==> s.entities[e].destroyTimerId !in s'.entities[e].activeTimerIds)
  {
  }

  lemma WithSaveTimerOk(s: Game, e: nat)
    requires PartOk(s, e)
    ensures
      var s' := WithSaveTimer(s, e);
      && Only(s, s', e) && PartOk(s', e)
      && s'.entities[e] == s.entities[e].(saveTimerId := s'.entities[e].saveTimerId, activeTimerIds := s'.entities[e].activeTimerIds)
  {
    var x := s.entities[e];
    OnlySelf(s, e);
    var y := x.(saveTimerId := s.lastTimer + 1, activeTimerIds := x.activeTimerIds + {s.lastTimer + 1});
    assert Known(y, SaveTimer, s.lastTimer + 1);
    MoreKnown(x, y, e, s.timers);
    hide PartOk, Known, Only, TimersKnown;
    if x.persistent && x.saveTimerId == 0 {
      StartOk(s, e, SaveTimer, y);
    }
  }

  lemma GainedOk(s: Game, e: nat, mb: Mailbox, primary: bool)
    requires PartOk(s, e)
    ensures
      var s', x := Gained(s, e, mb, primary), s.entities[e];
      && Only(s, s', e) && PartOk(s', e)
      && s'.entities[e].client == Some(EntityClient(mb, primary)) && s'.entities[e].destroyTimerId == 0
      && s'.entities[e].status == x.status
  {
    hide WithHeartbeat, WithoutDestroyTimer, WithSaveTimer, PartOk, Only, Send, Put;
    PutClientOk(s, e, Some(EntityClient(mb, primary)));
    var s1 := Put(s, e, s.entities[e].(client := Some(EntityClient(mb, primary))));
    WithHeartbeatOk(s1, e);
    OnlySelf(s1, e);
    var s2 := if primary then WithHeartbeat(s1, e) else s1;
    WithoutDestroyTimerOk(s2, e);
    var s3 := WithoutDestroyTimer(s2, e);
    SendOk(s3, e, mb.gate, Bind(mb.client, e));
    var s4 := Send(s3, mb.gate, Bind(mb.client, e));
    WithSaveTimerOk(s4, e);
    OnlyTrans(s, s1, s2, e);
    OnlyTrans(s, s2, s3, e);
    OnlyTrans(s, s3, s4, e);
    OnlyTrans(s, s4, WithSaveTimer(s4, e), e);
  }

  lemma OnlySelf(s: Game, e: nat)
    requires e in s.entities
    ensures Only(s, s, e)
  {
  }

  lemma PutClientOk(s: Game, e: nat, c: Option<EntityClient>)
    requires PartOk(s, e)
    ensures
      var s' := Put(s, e, s.entities[e].(client := c));
      Only(s, s', e) && PartOk(s', e) && s'.entities[e] == s.entities[e].(client := c)
  {
  }

  lemma SendOk(s: Game, e: nat, gate: string, m: Msg)
    requires PartOk(s, e)
    ensures var s' := Send(s, gate, m); Only(s, s', e) && PartOk(s', e) && s'.entities == s.entities
  {
  }

  /** setClient keeps the invariant, and does what it says unless it refuses. */
  lemma SetClientKeeps(s: Game, e: nat, c: Option<Mailbox>, primary: bool)
    requires Inv(s) && e in s.entities && (c.Some? ==> e in ListedAt(s.connMap, c.value))
    ensures
      var s' := SetClient(s, e, c, primary);
      && Inv(s') && Rises(s, s') && Only(s, s', e)
      && s'.entities[e].status == s.entities[e].status
      && (!Accepts(s.entities[e], c) ==> s' == s)
      && (Accepts(s.entities[e], c) && c.Some? ==> s'.entities[e].client == Some(EntityClient(c.value, primary)))
      && (c.None? ==> s'.entities[e].client == None)
      && (c.Some? ==> (Accepts(s.entities[e], c) <==> s.entities[e].status == Ready && s.entities[e].hasClient))
  {
    hide SetClient, SameClient, PartOk, TimersOk, NoTimers, TimersKnown;
    assert EntityOk(s.entities[e], e, s.timers);
    PartOf(s, e);
    SetClientParts(s, e, c, primary);
    if s.entities[e].client.None? && c.None? {
      StillNone(e, s.timers, SetClient(s, e, c, primary).timers);
    }
    PartBack(SetClient(s, e, c, primary), e);
    OthersOk(s, SetClient(s, e, c, primary), e);
  }

  lemma StillNone(e: nat, timers: map<nat, Owner>, fewer: map<nat, Owner>)
    requires forall id :: id in fewer ==> id in timers && fewer[id] == timers[id]
    ensures NoTimers(e, timers) ==> NoTimers(e, fewer)
  {
  }

  lemma PartOf(s: Game, e: nat)
    requires Inv(s) && e in s.entities
    ensures PartOk(s, e)
  {
    assert EntityOk(s.entities[e], e, s.timers);
  }

  lemma PartBack(s: Game, e: nat)
    requires PartOk(s, e)
    ensures e in s.entities && TimersKnown(s.entities[e], e, s.timers) && TimersOk(s.timers, s.lastTimer)
  {
  }

  lemma SetClientParts(s: Game, e: nat, c: Option<Mailbox>, primary: bool)
    requires PartOk(s, e) && (s.entities[e].client.Some? ==> s.entities[e].destroyTimerId == 0)
    ensures
      var s', x := SetClient(s, e, c, primary), s.entities[e];
      && Only(s, s', e) && PartOk(s', e) && s'.entities[e].status == x.status
      && (!Accepts(x, c) ==> s' == s)
      && (Accepts(x, c) && c.Some? ==>
            s'.entities[e].client == Some(EntityClient(c.value, primary)) && s'.entities[e].destroyTimerId == 0)
      && (Accepts(x, c) && c.None? ==>
            && s'.entities[e].client == None && s'.entities[e].heartbeatTimerId == 0
            && s'.entities[e].activeTimerIds <= x.activeTimerIds + {s'.entities[e].destroyTimerId}
            && (x.client.Some? ==> (s'.entities[e].destroyTimerId > 0 <==> x.persistent)))
      && (x.client.None? && c.None? ==>
            s'.entities[e].destroyTimerId == x.destroyTimerId && forall id :: id in s'.timers ==> id in s.timers && s'.timers[id] == s.timers[id])
  {
    hide LetGo, Lost, Gained, PartOk, Only, Put;
    var x := s.entities[e];
    OnlySelf(s, e);
    if Accepts(x, c) {
      if SameClient(x, c) {
        PutClientOk(s, e, Some(x.client.value.(primary := primary)));
      } else {
        if x.client.Some? {
          LetGoOk(s, e, c.None?);
        }
        var s1 := if x.client.Some? then LetGo(s, e, c.None?) else s;
        if c.None? {
          LostOk(s1, e);
          OnlyTrans(s, s1, Lost(s1, e), e);
        } else {
          GainedOk(s1, e, c.value, primary);
          OnlyTrans(s, s1, Gained(s1, e, c.value, primary), e);
        }
      }
    }
  }

  // ---------------------------------------------------------------- which timers setClient starts and stops

  /** Timer ids are given out in order. */
  ghost predicate IdsOk(s: Game) {
    forall e :: e in s.entities ==> IdsOf(s.entities[e], s.lastTimer)
  }

  ghost predicate IdsOf(x: Entity, last: nat) {
    x.heartbeatTimerId <= last && x.destroyTimerId <= last && x.saveTimerId <= last
  }

  ghost predicate ArmedAs(s: Game, id: nat, e: nat, kind: Kind) {
    id in s.timers && s.timers[id] == Owner(e, kind)
  }

  /** Timer `id` is as it was. */
  ghost predicate Same(s: Game, s': Game, id: nat) {
    (id in s'.timers <==> id in s.timers) && (id in s.timers ==> s'.timers[id] == s.timers[id])
  }

  lemma HeartbeatTimers(s: Game, e: nat)
    requires e in s.entities && IdsOf(s.entities[e], s.lastTimer)
    ensures
      var s', x := WithHeartbeat(s, e), s.entities[e];
      && s'.entities[e] == x.(heartbeatTimerId := s'.entities[e].heartbeatTimerId) && s'.entities[e].heartbeatTimerId > 0
      && (if x.heartbeatTimerId == 0 then ArmedAs(s', s'.entities[e].heartbeatTimerId, e, HeartbeatTimer)
          else s'.entities[e].heartbeatTimerId == x.heartbeatTimerId)
      && s.lastTimer <= s'.lastTimer && IdsOf(s'.entities[e], s'.lastTimer)
      && forall id: nat :: id <= s.lastTimer ==> Same(s, s', id)
  {
  }

  lemma NoDestroyTimers(s: Game, e: nat)
    requires e in s.entities && IdsOf(s.entities[e], s.lastTimer)
    ensures
      var s', x := WithoutDestroyTimer(s, e), s.entities[e];
      && s'.entities[e] == x.(destroyTimerId := 0, activeTimerIds := s'.entities[e].activeTimerIds)
      && s'.lastTimer == s.lastTimer && (x.destroyTimerId > 0 ==> x.destroyTimerId !in s'.timers)
      && forall id: nat :: id != x.destroyTimerId || id == 0 ==> Same(s, s', id)
  {
  }

  lemma SaveTimers(s: Game, e: nat)
    requires e in s.entities && IdsOf(s.entities[e], s.lastTimer)
    ensures
      var s', x := WithSaveTimer(s, e), s.entities[e];
      && s'.entities[e] == x.(saveTimerId := s'.entities[e].saveTimerId, activeTimerIds := s'.entities[e].activeTimerIds)
      && (if x.persistent && x.saveTimerId == 0 then
            s'.entities[e].saveTimerId > 0 && ArmedAs(s', s'.entities[e].saveTimerId, e, SaveTimer)
          else s'.entities[e].saveTimerId == x.saveTimerId)
      && s.lastTimer <= s'.lastTimer && IdsOf(s'.entities[e], s'.lastTimer)
      && forall id: nat :: id <= s.lastTimer ==> Same(s, s', id)
  {
  }

  lemma SendTimers(s: Game, gate: string, m: Msg)
    ensures var s' := Send(s, gate, m); s'.entities == s.entities && s'.timers == s.timers && s'.lastTimer == s.lastTimer
  {
  }

  /** An entity that gains a client has its destroy timer stopped, a save timer if it is
      persistent and, with the client's primary entity, a heartbeat timer. */
  lemma GainedTimers(s: Game, e: nat, mb: Mailbox, primary: bool)
    requires e in s.entities && IdsOf(s.entities[e], s.lastTimer)
    requires s.entities[e].destroyTimerId > 0 ==> s.entities[e].destroyTimerId != s.entities[e].heartbeatTimerId
    ensures
      var s', x := Gained(s, e, mb, primary), s.entities[e];
      var x' := s'.entities[e];
      && IdsOf(x', s'.lastTimer) && s.lastTimer <= s'.lastTimer
      && (primary ==> x'.heartbeatTimerId > 0 && (x.heartbeatTimerId == 0 ==> ArmedAs(s', x'.heartbeatTimerId, e, HeartbeatTimer)))
      && (!primary || x.heartbeatTimerId > 0 ==> x'.heartbeatTimerId == x.heartbeatTimerId)
      && (x.persistent ==> x'.saveTimerId > 0 && (x.saveTimerId == 0 ==> ArmedAs(s', x'.saveTimerId, e, SaveTimer)))
      && (!x.persistent || x.saveTimerId > 0 ==> x'.saveTimerId == x.saveTimerId)
      && (x.destroyTimerId > 0 ==> x.destroyTimerId !in s'.timers) && x'.destroyTimerId == 0
  {
    var s1 := Put(s, e, s.entities[e].(client := Some(EntityClient(mb, primary))));
    HeartbeatTimers(s1, e);
    var s2 := if primary then WithHeartbeat(s1, e) else s1;
    NoDestroyTimers(s2, e);
    var s3 := WithoutDestroyTimer(s2, e);
    SendTimers(s3, mb.gate, Bind(mb.client, e));
    var s4 := Send(s3, mb.gate, Bind(mb.client, e));
    SaveTimers(s4, e);
    hide WithHeartbeat, WithoutDestroyTimer, WithSaveTimer, Send;
    var hb, d := s2.entities[e].heartbeatTimerId, s.entities[e].destroyTimerId;
    assert Same(s2, s3, hb) || hb == d;
    assert Same(s4, WithSaveTimer(s4, e), hb) && Same(s4, WithSaveTimer(s4, e), d);
  }

  /** An entity that gives up its client for good has its heartbeat timer stopped and, if it is
      persistent, its destroy timer started. */
  lemma GivenUpTimers(s: Game, e: nat)
    requires e in s.entities && s.entities[e].client.Some? && IdsOf(s.entities[e], s.lastTimer)
    ensures
      var s', x := Lost(LetGo(s, e, true), e), s.entities[e];
      var x' := s'.entities[e];
      && IdsOf(x', s'.lastTimer) && s.lastTimer <= s'.lastTimer
      && (x.heartbeatTimerId > 0 ==> x.heartbeatTimerId !in s'.timers) && x'.heartbeatTimerId == 0
      && (x.persistent ==> x'.destroyTimerId == s.lastTimer + 1 && ArmedAs(s', x'.destroyTimerId, e, DestroyTimer))
      && (!x.persistent ==> x'.destroyTimerId == x.destroyTimerId)
  {
  }

  /** Every timer that setClient starts or stops. */
  lemma SetClientTimers(s: Game, e: nat, c: Option<Mailbox>, primary: bool)
    requires Inv(s) && e in s.entities && IdsOk(s) && Accepts(s.entities[e], c) && !SameClient(s.entities[e], c)
    ensures
      var s', x := SetClient(s, e, c, primary), s.entities[e];
      var x' := s'.entities[e];
      && IdsOf(x', s'.lastTimer) && s.lastTimer <= s'.lastTimer
      && (c.Some? && primary ==>
            x'.heartbeatTimerId > 0 && (x.heartbeatTimerId == 0 ==> ArmedAs(s', x'.heartbeatTimerId, e, HeartbeatTimer)))
      && (c.Some? && (!primary || x.heartbeatTimerId > 0) ==> x'.heartbeatTimerId == x.heartbeatTimerId)
      && (c.Some? && x.persistent ==>
            x'.saveTimerId > 0 && (x.saveTimerId == 0 ==> ArmedAs(s', x'.saveTimerId, e, SaveTimer)))
      && (c.Some? && x.destroyTimerId > 0 ==> x.destroyTimerId !in s'.timers)
      && (c.Some? ==> x'.destroyTimerId == 0)
      && (c.None? && x.heartbeatTimerId > 0 ==> x.heartbeatTimerId !in s'.timers)
      && (c.None? ==> x'.heartbeatTimerId == 0)
      && (c.None? && x.client.Some? && x.persistent ==>
            x'.destroyTimerId == s.lastTimer + 1 && ArmedAs(s', x'.destroyTimerId, e, DestroyTimer))
  {
    var x := s.entities[e];
    assert IdsOf(x, s.lastTimer) && EntityOk(x, e, s.timers);
    hide Inv, EntityOk;
    if c.Some? {
      if x.client.Some? {
        LetGoForNow(s, e);
      }
      GainedTimers(if x.client.Some? then LetGo(s, e, false) else s, e, c.value, primary);
      hide Gained, LetGo;
    } else if x.client.Some? {
      GivenUpTimers(s, e);
      hide Lost, LetGo;
    }
  }

  lemma LetGoForNow(s: Game, e: nat)
    requires e in s.entities && s.entities[e].client.Some?
    ensures var s' := LetGo(s, e, false); s'.entities == s.entities && s'.timers == s.timers && s'.lastTimer == s.lastTimer
  {
  }

  // ---------------------------------------------------------------- lifecycle

  function CancelAllTimers(s: Game, e: nat): (r: Game)
    requires e in s.entities
    ensures e in r.entities
  {
    var x := s.entities[e];
    Put(s.(timers := s.timers - x.activeTimerIds), e, x.(activeTimerIds := {}, saveTimerId := 0, destroyTimerId := 0))
  }

  function Final(s: Game, e: nat): Game
    requires e in s.entities
  {
    Put(s.(registered := s.registered - {e}, finals := s.finals + [e]), e, s.entities[e].(status := Destroyed))
  }

  /** `saveOk`: the entity's data could be put together. */
  function Destroy(s: Game, e: nat, isSaveDB: bool, immediately: bool, now: int, saveOk: bool): Game
    requires e in s.entities
  {
    var x := s.entities[e];
    if x.status == Destroyed || (x.status == Destroying && now < x.destroyingSince + 10) then s
    else
      var s1 := if Rank(x.status) <= Rank(Ready) then CancelAllTimers(s, e) else s;
      if x.status == Create then Final(s1, e)
      else
        var s2 := if x.client.Some? then SetClient(s1, e, None, x.client.value.primary) else s1;
        var s3 := if immediately then WithoutDestroyTimer(s2, e) else s2;
        if s3.entities[e].destroyTimerId > 0 then s3
        else StartDestroying(s3, e, isSaveDB, now, saveOk)
  }

  function StartDestroying(s: Game, e: nat, isSaveDB: bool, now: int, saveOk: bool): Game
    requires e in s.entities
  {
    var s1 := Put(s, e, s.entities[e].(status := Destroying, destroyingSince := now));
    if isSaveDB && s.entities[e].persistent then (if saveOk then s1.(saving := s1.saving + {e}) else s1)
    else Final(s1, e)
  }

  /** Nothing of the entity is left to clean up. */
  ghost predicate Cleared(s: Game, e: nat)
    ensures Cleared(s, e) ==> e in s.entities
  {
    e in s.entities && s.entities[e].client == None && s.entities[e].destroyTimerId == 0
    && s.entities[e].heartbeatTimerId == 0 && NoTimers(e, s.timers)
  }

  lemma CancelAllTimersOk(s: Game, e: nat)
    requires PartOk(s, e)
    ensures
      var s', x := CancelAllTimers(s, e), s.entities[e];
      && Only(s, s', e) && PartOk(s', e)
      && s'.entities[e] == x.(activeTimerIds := {}, saveTimerId := 0, destroyTimerId := 0)
      && (x.heartbeatTimerId == 0 ==> NoTimers(e, s'.timers))
  {
  }

  /** Exactly the timers the entity lists are cancelled. */
  lemma CancelsListed(s: Game, e: nat, id: nat)
    requires e in s.entities
    ensures var s' := CancelAllTimers(s, e);
            if id in s.entities[e].activeTimerIds then id !in s'.timers else Same(s, s', id)
  {
  }

  /** From a cleared entity the last steps keep everything. */
  lemma FinalKeeps(s: Game, e: nat)
    requires Inv(s) && Cleared(s, e) && s.entities[e].status != Destroyed
    ensures Inv(Final(s, e)) && Rises(s, Final(s, e))
    ensures Final(s, e).entities[e].status == Destroyed && Cleared(Final(s, e), e)
  {
    var s' := Final(s, e);
    MarkEntities(s, s', e);
    hide NoTimers, EntityOk;
  }

  lemma MarkRegistry(s: Game, s1: Game, e: nat)
    requires Registry(s) && e in s.entities && s.entities[e].status != Destroyed
    requires s1.entities.Keys == s.entities.Keys && s1.entities[e].status == Destroying
    requires forall d :: d in s.entities && d != e ==> s1.entities[d] == s.entities[d]
    requires s1.registered == s.registered && s1.finals == s.finals && s1.saving <= s.saving + {e}
    ensures Registry(s1)
  {
  }

  lemma MarkKeeps(s: Game, e: nat, now: int, saving: bool)
    requires Inv(s) && Cleared(s, e) && s.entities[e].status != Destroyed && s.entities[e].status != Create
    ensures
      var s1 := Put(s, e, s.entities[e].(status := Destroying, destroyingSince := now));
      var s' := if saving then s1.(saving := s1.saving + {e}) else s1;
      Inv(s') && Rises(s, s') && Cleared(s', e) && s'.entities[e].status == Destroying
  {
    hide NoTimers, EntityOk, Registry;
    var s1 := Put(s, e, s.entities[e].(status := Destroying, destroyingSince := now));
    var s' := if saving then s1.(saving := s1.saving + {e}) else s1;
    MarkRegistry(s, s', e);
    MarkEntities(s, s', e);
  }

  lemma MarkEntities(s: Game, s1: Game, e: nat)
    requires Inv(s) && Cleared(s, e) && s1.timers == s.timers && s1.entities.Keys == s.entities.Keys
    requires forall d :: d in s.entities && d != e ==> s1.entities[d] == s.entities[d]
    requires s1.entities[e] == s.entities[e].(status := s1.entities[e].status, destroyingSince := s1.entities[e].destroyingSince)
    ensures EntitiesOk(s1)
  {
    hide NoTimers, TimersKnown, Registry;
    assert EntityOk(s.entities[e], e, s.timers);
    SameTimers(s.entities[e], s1.entities[e], e, s.timers);
    forall d | d in s1.entities
      ensures EntityOk(s1.entities[d], d, s1.timers)
    {
      assert EntityOk(s.entities[d], d, s.timers);
    }
  }

  lemma SameTimers(x: Entity, y: Entity, e: nat, timers: map<nat, Owner>)
    requires TimersKnown(x, e, timers) && y.activeTimerIds == x.activeTimerIds
    requires y.destroyTimerId == x.destroyTimerId && y.heartbeatTimerId == x.heartbeatTimerId
    ensures TimersKnown(y, e, timers)
  {
  }

  lemma StartDestroyingKeeps(s: Game, e: nat, isSaveDB: bool, now: int, saveOk: bool)
    requires Inv(s) && Cleared(s, e) && s.entities[e].status != Destroyed && s.entities[e].status != Create
    ensures
      var s' := StartDestroying(s, e, isSaveDB, now, saveOk);
      Inv(s') && Rises(s, s') && Cleared(s', e) && Rank(s'.entities[e].status) >= Rank(Destroying)
  {
    assert e in s.entities;
    hide Final, Inv, Rises, Cleared;
    var s1 := Put(s, e, s.entities[e].(status := Destroying, destroyingSince := now));
    MarkKeeps(s, e, now, false);
    MarkKeeps(s, e, now, true);
    FinalKeeps(s1, e);
    RisesTrans(s, s1, Final(s1, e));
  }

  /** After the timers are cancelled and the client is gone, the invariant holds again. */
  lemma UnboundKeeps(s: Game, s': Game, e: nat)
    requires Inv(s) && Only(s, s', e) && PartOk(s', e) && s'.entities[e].status == s.entities[e].status
    requires s'.entities[e].client == None && s'.entities[e].heartbeatTimerId == 0
    requires Rank(s.entities[e].status) <= Rank(Ready)
    ensures Inv(s') && Rises(s, s')
  {
    hide NoTimers, TimersKnown, TimersOk;
    PartBack(s', e);
    OthersOk(s, s', e);
  }

  /** Destroy keeps the invariant. An immediate one, unless it is ignored for being repeated
      within ten seconds, leaves no client and no timer, and the entity on its way out. */
  lemma DestroyKeeps(s: Game, e: nat, isSaveDB: bool, immediately: bool, now: int, saveOk: bool)
    requires Inv(s) && e in s.entities
    ensures
      var s' := Destroy(s, e, isSaveDB, immediately, now, saveOk);
      && Inv(s') && Rises(s, s') && e in s'.entities && s'.entities[e].client == None && NoHeartbeat(s', e)
      && (immediately ==> Rank(s'.entities[e].status) >= Rank(Destroying) && NoTimers(e, s'.timers) && s'.entities[e].destroyTimerId == 0)
  {
    var x := s.entities[e];
    assert EntityOk(x, e, s.timers);
    HeartbeatIfNone(s, e);
    hide Inv, Rises, NoTimers, StartDestroying, Final, CancelAllTimers, Unbound, Only, PartOk, EntityOk;
    if Rank(x.status) > Rank(Ready) {
      if !(x.status == Destroyed || now < x.destroyingSince + 10) {
        StartDestroyingKeeps(s, e, isSaveDB, now, saveOk);
        ClearedHeartbeat(StartDestroying(s, e, isSaveDB, now, saveOk), e);
      }
    } else {
      PartOf(s, e);
      CancelAllTimersOk(s, e);
      var s1 := CancelAllTimers(s, e);
      if x.status == Create {
        UnboundKeeps(s, s1, e);
        FinalKeeps(s1, e);
        RisesTrans(s, s1, Final(s1, e));
        ClearedHeartbeat(Final(s1, e), e);
      } else {
        DestroyReady(s, e, isSaveDB, immediately, now, saveOk);
      }
    }
  }

  lemma HeartbeatIfNone(s: Game, e: nat)
    requires Inv(s) && e in s.entities
    ensures s.entities[e].client == None ==> NoHeartbeat(s, e)
  {
    assert EntityOk(s.entities[e], e, s.timers);
  }

  lemma ClearedHeartbeat(s: Game, e: nat)
    requires Cleared(s, e)
    ensures NoHeartbeat(s, e)
  {
  }

  ghost predicate NoHeartbeat(s: Game, e: nat) {
    e in s.entities && s.entities[e].heartbeatTimerId == 0
    && forall id :: id in s.timers ==> s.timers[id] != Owner(e, HeartbeatTimer)
  }

  /** What an immediate or delayed destroy of a ready entity does before it marks it. */
  function Unbound(s: Game, e: nat): Game
    requires e in s.entities
  {
    var s1 := CancelAllTimers(s, e);
    if s.entities[e].client.Some? then SetClient(s1, e, None, s.entities[e].client.value.primary) else s1
  }

  lemma UnboundOk(s: Game, e: nat)
    requires Inv(s) && e in s.entities && s.entities[e].status == Ready
    ensures
      var s2 := Unbound(s, e);
      && Only(s, s2, e) && PartOk(s2, e) && s2.entities[e].status == Ready
      && s2.entities[e].client == None && s2.entities[e].heartbeatTimerId == 0
      && s2.entities[e].activeTimerIds <= {s2.entities[e].destroyTimerId}
      && (s2.entities[e].destroyTimerId > 0 <==> s.entities[e].client.Some? && s.entities[e].persistent)
  {
    hide SetClient, SameClient, PartOk, TimersOk;
    assert EntityOk(s.entities[e], e, s.timers);
    PartOf(s, e);
    CancelAllTimersOk(s, e);
    var s1 := CancelAllTimers(s, e);
    hide Only, CancelAllTimers;
    if s.entities[e].client.Some? {
      SetClientParts(s1, e, None, s.entities[e].client.value.primary);
      OnlyTrans(s, s1, Unbound(s, e), e);
    }
  }

  /** A ready entity is unbound first, and marked unless its destroy timer is pending. */
  lemma DestroyOfReady(s: Game, e: nat, isSaveDB: bool, immediately: bool, now: int, saveOk: bool)
    requires e in s.entities && s.entities[e].status == Ready && e in Unbound(s, e).entities
    ensures
      var s2 := Unbound(s, e);
      var s3 := if immediately then WithoutDestroyTimer(s2, e) else s2;
      e in s3.entities
      && Destroy(s, e, isSaveDB, immediately, now, saveOk) ==
         if s3.entities[e].destroyTimerId > 0 then s3 else StartDestroying(s3, e, isSaveDB, now, saveOk)
  {
    hide SetClient, StartDestroying;
  }

  lemma NothingArmed(s: Game, e: nat)
    requires PartOk(s, e) && s.entities[e].destroyTimerId == 0 && s.entities[e].heartbeatTimerId == 0
    requires s.entities[e].activeTimerIds <= {0}
    ensures NoTimers(e, s.timers)
  {
  }

  lemma DestroyReady(s: Game, e: nat, isSaveDB: bool, immediately: bool, now: int, saveOk: bool)
    requires Inv(s) && e in s.entities && s.entities[e].status == Ready
    ensures
      var s' := Destroy(s, e, isSaveDB, immediately, now, saveOk);
      && Inv(s') && Rises(s, s') && e in s'.entities && s'.entities[e].client == None && NoHeartbeat(s', e)
      && (immediately ==> Rank(s'.entities[e].status) >= Rank(Destroying) && NoTimers(e, s'.timers) && s'.entities[e].destroyTimerId == 0)
  {
    UnboundOk(s, e);
    var s2 := Unbound(s, e);
    var s3 := if immediately then WithoutDestroyTimer(s2, e) else s2;
    WithoutDestroyTimerOk(s2, e);
    DestroyOfReady(s, e, isSaveDB, immediately, now, saveOk);
    hide Unbound, WithoutDestroyTimer, Only, PartOk, Inv, Rises, StartDestroying, NoTimers;
    if immediately {
      OnlyTrans(s, s2, s3, e);
    }
    AfterUnbound(s, s3, e, isSaveDB, now, saveOk);
  }

  /** A destroy that is not immediate waits for the destroy timer exactly when it takes a client
      away from a persistent entity; the entity then stays ready. */
  lemma DelayedDestroyWaits(s: Game, e: nat, isSaveDB: bool, immediately: bool, now: int, saveOk: bool)
    requires Inv(s) && e in s.entities && s.entities[e].status == Ready
    ensures
      var s' := Destroy(s, e, isSaveDB, immediately, now, saveOk);
      e in s'.entities
      && (s'.entities[e].status == Ready <==> !immediately && s.entities[e].client.Some? && s.entities[e].persistent)
  {
    UnboundOk(s, e);
    var s2 := Unbound(s, e);
    WithoutDestroyTimerOk(s2, e);
    DestroyOfReady(s, e, isSaveDB, immediately, now, saveOk);
    hide Unbound, WithoutDestroyTimer, Only, PartOk, Inv, Destroy;
  }

  /** A destroy that is ignored: the entity is gone, or was destroyed less than ten seconds ago. */
  predicate Ignored(x: Entity, now: int) {
    x.status == Destroyed || (x.status == Destroying && now < x.destroyingSince + 10)
  }

  /** The other entities are as they were, and this one is of the same kind. */
  ghost predicate Alone(s: Game, s': Game, e: nat)
    ensures Alone(s, s', e) ==> e in s.entities && e in s'.entities
  {
    && e in s.entities && s'.entities.Keys == s.entities.Keys
    && s'.entities[e].persistent == s.entities[e].persistent && s'.entities[e].hasClient == s.entities[e].hasClient
    && forall d :: d in s.entities && d != e ==> s'.entities[d] == s.entities[d]
  }

  /** What a destroy leads to that is neither ignored nor put off: a persistent entity is saved
      first if that is asked for, any other is final at once. */
  ghost predicate Ends(s: Game, s': Game, e: nat, saves: bool, now: int, saveOk: bool) {
    Alone(s, s', e) &&
    if saves then
      && s'.entities[e].status == Destroying && s'.entities[e].destroyingSince == now && s'.finals == s.finals
      && s'.saving == (if saveOk then s.saving + {e} else s.saving) && s'.registered == s.registered
    else
      && s'.entities[e].status == Destroyed && s'.finals == s.finals + [e]
      && s'.saving == s.saving && s'.registered == s.registered - {e}
  }

  /** Every case of a destroy. One that takes the client from a persistent entity and is not
      immediate is put off: the entity stays ready with its destroy timer armed. */
  lemma DestroyOutcome(s: Game, e: nat, isSaveDB: bool, immediately: bool, now: int, saveOk: bool)
    requires Inv(s) && IdsOk(s) && e in s.entities
    ensures
      var s', x := Destroy(s, e, isSaveDB, immediately, now, saveOk), s.entities[e];
      if x.status == Destroyed || (x.status == Destroying && now < x.destroyingSince + 10) then s' == s
      else if x.status == Create then Ends(s, s', e, false, now, saveOk)
      else if x.client.Some? && x.persistent && !immediately then
        && Alone(s, s', e) && s'.entities[e].status == Ready && s'.finals == s.finals && s'.saving == s.saving
        && s'.registered == s.registered && ArmedAs(s', s'.entities[e].destroyTimerId, e, DestroyTimer)
      else Ends(s, s', e, isSaveDB && x.persistent, now, saveOk)
  {
    var x := s.entities[e];
    assert EntityOk(x, e, s.timers);
    if !Ignored(x, now) {
      hide Inv, NoTimers, Destroy, Ends, EntityOk;
      match x.status {
        case Create => FailedOutcome(s, e, isSaveDB, immediately, now, saveOk);
        case Ready => ReadyOutcome(s, e, isSaveDB, immediately, now, saveOk);
        case Destroying =>
          AgainOutcome(s, e, isSaveDB, immediately, now, saveOk);
          StartOutcome(s, e, isSaveDB, now, saveOk);
      }
    }
  }

  lemma ReadyOutcome(s: Game, e: nat, isSaveDB: bool, immediately: bool, now: int, saveOk: bool)
    requires Inv(s) && IdsOk(s) && e in s.entities && s.entities[e].status == Ready
    ensures
      var s', x := Destroy(s, e, isSaveDB, immediately, now, saveOk), s.entities[e];
      if x.client.Some? && x.persistent && !immediately then
        && Alone(s, s', e) && s'.entities[e].status == Ready && s'.finals == s.finals && s'.saving == s.saving
        && s'.registered == s.registered && ArmedAs(s', s'.entities[e].destroyTimerId, e, DestroyTimer)
      else Ends(s, s', e, isSaveDB && x.persistent, now, saveOk)
  {
    UnboundOk(s, e);
    if s.entities[e].client.Some? && s.entities[e].persistent {
      UnboundTimer(s, e);
    }
    var s2 := Unbound(s, e);
    var s3 := if immediately then WithoutDestroyTimer(s2, e) else s2;
    WithoutDestroyTimerOk(s2, e);
    DestroyOfReady(s, e, isSaveDB, immediately, now, saveOk);
    StartOutcome(s3, e, isSaveDB, now, saveOk);
    assert Only(s, s3, e) by {
      OnlyTrans(s, s2, s3, e);
    }
    hide Unbound, WithoutDestroyTimer, PartOk, Inv, StartDestroying, NoTimers, Destroy;
  }

  /** Without a client to take, a marked entity only starts to be destroyed, again. */
  lemma AgainOutcome(s: Game, e: nat, isSaveDB: bool, immediately: bool, now: int, saveOk: bool)
    requires e in s.entities && s.entities[e].status == Destroying && !Ignored(s.entities[e], now)
    requires s.entities[e].client.None? && s.entities[e].destroyTimerId == 0
    ensures Destroy(s, e, isSaveDB, immediately, now, saveOk) == StartDestroying(s, e, isSaveDB, now, saveOk)
  {
    hide StartDestroying;
  }

  lemma FailedOutcome(s: Game, e: nat, isSaveDB: bool, immediately: bool, now: int, saveOk: bool)
    requires e in s.entities && s.entities[e].status == Create
    ensures Ends(s, Destroy(s, e, isSaveDB, immediately, now, saveOk), e, false, now, saveOk)
  {
  }

  lemma StartOutcome(s: Game, e: nat, isSaveDB: bool, now: int, saveOk: bool)
    requires e in s.entities
    ensures Ends(s, StartDestroying(s, e, isSaveDB, now, saveOk), e, isSaveDB && s.entities[e].persistent, now, saveOk)
  {
  }

  /** Losing its client arms the destroy timer of a persistent entity. */
  lemma UnboundTimer(s: Game, e: nat)
    requires Inv(s) && IdsOk(s) && e in s.entities && s.entities[e].status == Ready && s.entities[e].client.Some? && s.entities[e].persistent
    ensures
      var s2 := Unbound(s, e);
      e in s2.entities && s2.entities[e].destroyTimerId > 0 && ArmedAs(s2, s2.entities[e].destroyTimerId, e, DestroyTimer)
  {
    assert EntityOk(s.entities[e], e, s.timers) && IdsOf(s.entities[e], s.lastTimer);
    var s1 := CancelAllTimers(s, e);
    GivenUpTimers(s1, e);
    hide Lost, LetGo, Inv;
  }

  lemma AfterUnbound(s: Game, s3: Game, e: nat, isSaveDB: bool, now: int, saveOk: bool)
    requires Inv(s) && Only(s, s3, e) && PartOk(s3, e) && s.entities[e].status == s3.entities[e].status == Ready
    requires s3.entities[e].client == None && s3.entities[e].heartbeatTimerId == 0
    requires s3.entities[e].destroyTimerId == 0 ==> s3.entities[e].activeTimerIds <= {0}
    ensures
      var s' := if s3.entities[e].destroyTimerId > 0 then s3 else StartDestroying(s3, e, isSaveDB, now, saveOk);
      && Inv(s') && Rises(s, s') && e in s'.entities && s'.entities[e].client == None && NoHeartbeat(s', e)
      && (s3.entities[e].destroyTimerId == 0 ==>
            Rank(s'.entities[e].status) >= Rank(Destroying) && NoTimers(e, s'.timers) && s'.entities[e].destroyTimerId == 0)
  {
    hide StartDestroying, NoTimers;
    UnboundKeeps(s, s3, e);
    if s3.entities[e].destroyTimerId == 0 {
      NothingArmed(s3, e);
      StartDestroyingKeeps(s3, e, isSaveDB, now, saveOk);
      RisesTrans(s, s3, StartDestroying(s3, e, isSaveDB, now, saveOk));
    }
    HeartbeatGone(if s3.entities[e].destroyTimerId > 0 then s3 else StartDestroying(s3, e, isSaveDB, now, saveOk), e);
  }

  lemma HeartbeatGone(s: Game, e: nat)
    requires Inv(s) && e in s.entities && s.entities[e].heartbeatTimerId == 0
    ensures NoHeartbeat(s, e)
  {
    assert EntityOk(s.entities[e], e, s.timers);
  }
}
