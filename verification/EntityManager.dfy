/** The entity manager and its entities, updated in place: every method does to the state what
    the function of modules Entities and EntityRuns says. */
module EntityManagers {
  import opened Common
  import opened Entities
  import opened EntityRuns

  class EntityManager {
    var entities: map<nat, Entity>
    var allEntities: set<nat>
    var connMap: map<string, map<nat, set<nat>>>
    var timers: map<nat, Owner>
    var lastTimer: nat
    var up: set<string>
    var sent: map<string, seq<Msg>>
    var saving: set<nat>
    var finals: seq<nat>

    constructor (gates: set<string>)
      ensures S() == Start(gates)
    {
      entities, allEntities, connMap, timers, lastTimer := map[], {}, map[], map[], 0;
      up, sent, saving, finals := gates, map[], {}, [];
    }

    function S(): Game
      reads this
    {
      Game(entities, allEntities, connMap, timers, lastTimer, up, sent, saving, finals)
    }

    method PutEntity(e: nat, x: Entity)
      modifies this
      ensures S() == Put(old(S()), e, x)
    {
      entities := entities[e := x];
    }

    method AddTimer(e: nat, kind: Kind) returns (id: nat)
      modifies this
      ensures S() == StartTimer(old(S()), e, kind) && id == old(lastTimer) + 1
    {
      lastTimer := lastTimer + 1;
      timers := timers[lastTimer := Owner(e, kind)];
      return lastTimer;
    }

    method Cancel(id: nat)
      modifies this
      ensures S() == CancelTimer(old(S()), id)
    {
      timers := timers - {id};
    }

    method SendTo(gate: string, m: Msg)
      modifies this
      ensures S() == Send(old(S()), gate, m)
    {
      if gate in up {
        sent := sent[gate := (if gate in sent then sent[gate] else []) + [m]];
      }
    }

    method AddEntityTimer(e: nat, kind: Kind) returns (id: nat)
      requires e in entities
      modifies this
      ensures id == old(lastTimer) + 1
      ensures S() == Put(StartTimer(old(S()), e, kind), e, old(entities[e]).(activeTimerIds := old(entities[e]).activeTimerIds + {id}))
    {
      id := AddTimer(e, kind);
      PutEntity(e, entities[e].(activeTimerIds := entities[e].activeTimerIds + {id}));
    }

    method CancelEntityTimer(e: nat, id: nat)
      requires e in entities
      modifies this
      ensures S() == Put(CancelTimer(old(S()), id), e, old(entities[e]).(activeTimerIds := old(entities[e]).activeTimerIds - {id}))
    {
      Cancel(id);
      PutEntity(e, entities[e].(activeTimerIds := entities[e].activeTimerIds - {id}));
    }

    method CancelAll(e: nat)
      requires e in entities
      modifies this
      ensures S() == CancelAllTimers(old(S()), e)
    {
      var x := entities[e];
      var rest := x.activeTimerIds;
      while rest != {}
        invariant rest <= x.activeTimerIds
        invariant S() == old(S()).(timers := old(timers) - (x.activeTimerIds - rest))
        decreases |rest|
      {
        var id :| id in rest;
        assert old(timers) - (x.activeTimerIds - rest) - {id} == old(timers) - (x.activeTimerIds - (rest - {id}));
        Cancel(id);
        rest := rest - {id};
      }
      assert x.activeTimerIds - {} == x.activeTimerIds;
      PutEntity(e, x.(activeTimerIds := {}, saveTimerId := 0, destroyTimerId := 0));
    }

    // -------------------------------------------------------------- setClient

    method LetClientGo(e: nat, forGood: bool)
      requires e in entities && entities[e].client.Some?
      modifies this
      ensures S() == LetGo(old(S()), e, forGood) && e in entities
    {
      var mb := entities[e].client.value.mailbox;
      SendTo(mb.gate, Unbind(mb.client, e));
      if forGood && entities[e].persistent {
        var id := AddEntityTimer(e, DestroyTimer);
        PutEntity(e, entities[e].(destroyTimerId := id));
      }
    }

    method DelCheckHeartBeatTimer(e: nat)
      requires e in entities
      modifies this
      ensures S() == (if old(entities[e]).heartbeatTimerId > 0
                      then Put(CancelTimer(old(S()), old(entities[e]).heartbeatTimerId), e, old(entities[e]).(heartbeatTimerId := 0))
                      else old(S()))
    {
      if entities[e].heartbeatTimerId > 0 {
        Cancel(entities[e].heartbeatTimerId);
        PutEntity(e, entities[e].(heartbeatTimerId := 0));
      }
    }

    method LoseClient(e: nat)
      requires e in entities
      modifies this
      ensures S() == Lost(old(S()), e) && e in entities
    {
      PutEntity(e, entities[e].(client := None));
      DelCheckHeartBeatTimer(e);
    }

    method AddCheckHeartbeatTimer(e: nat)
      requires e in entities
      modifies this
      ensures S() == WithHeartbeat(old(S()), e) && e in entities
    {
      if entities[e].heartbeatTimerId == 0 {
        var id := AddTimer(e, HeartbeatTimer);
        PutEntity(e, entities[e].(heartbeatTimerId := id));
      }
    }

    method DropDestroyTimer(e: nat)
      requires e in entities
      modifies this
      ensures S() == WithoutDestroyTimer(old(S()), e) && e in entities
    {
      if entities[e].destroyTimerId > 0 {
        CancelEntityTimer(e, entities[e].destroyTimerId);
        PutEntity(e, entities[e].(destroyTimerId := 0));
      }
    }

    method GainClient(e: nat, mb: Mailbox, primary: bool)
      requires e in entities
      modifies this
      ensures S() == Gained(old(S()), e, mb, primary) && e in entities
    {
      hide WithHeartbeat, WithoutDestroyTimer;
      PutEntity(e, entities[e].(client := Some(EntityClient(mb, primary))));
      if primary {
        AddCheckHeartbeatTimer(e);
      }
      DropDestroyTimer(e);
      SendTo(mb.gate, Bind(mb.client, e));
      if entities[e].persistent && entities[e].saveTimerId == 0 {
        var id := AddEntityTimer(e, SaveTimer);
        PutEntity(e, entities[e].(saveTimerId := id));
      }
    }

    /** False if the entity refuses. */
    method SetEntityClient(e: nat, c: Option<Mailbox>, primary: bool) returns (ok: bool)
      requires e in entities
      modifies this
      ensures S() == SetClient(old(S()), e, c, primary) && ok == Accepts(old(entities[e]), c)
      ensures e in entities
    {
      hide LetGo, Lost, Gained;
      if entities[e].status != Ready && c.Some? {
        return false;
      }
      if !entities[e].hasClient {
        return false;
      }
      if entities[e].client.Some? {
        if c == Some(entities[e].client.value.mailbox) {
          PutEntity(e, entities[e].(client := Some(entities[e].client.value.(primary := primary))));
          return true;
        }
        LetClientGo(e, c.None?);
      }
      if c.None? {
        LoseClient(e);
      } else {
        GainClient(e, c.value, primary);
      }
      return true;
    }

    // -------------------------------------------------------------- lifecycle

    method FinalEntity(e: nat)
      requires e in entities
      modifies this
      ensures S() == Final(old(S()), e)
    {
      allEntities := allEntities - {e};
      finals := finals + [e];
      PutEntity(e, entities[e].(status := Destroyed));
    }

    /** Marks the entity; it is finalised now, or when its save is confirmed. */
    method BeginDestroying(e: nat, isSaveDB: bool, now: int, saveOk: bool)
      requires e in entities
      modifies this
      ensures S() == StartDestroying(old(S()), e, isSaveDB, now, saveOk)
    {
      PutEntity(e, entities[e].(status := Destroying, destroyingSince := now));
      if isSaveDB && entities[e].persistent {
        if saveOk {
          saving := saving + {e};
        }
      } else {
        FinalEntity(e);
      }
    }

    method DestroyOne(e: nat, isSaveDB: bool, immediately: bool, now: int, saveOk: bool)
      requires e in entities
      modifies this
      ensures S() == Destroy(old(S()), e, isSaveDB, immediately, now, saveOk)
    {
      hide SetClient, CancelAllTimers, WithoutDestroyTimer, StartDestroying, Final;
      CancelAllStays(S(), e);
      if entities[e].status == Destroyed {
        return;
      } else if entities[e].status == Destroying {
        if now < entities[e].destroyingSince + 10 {
          return;
        }
      }
      if Rank(entities[e].status) <= Rank(Ready) {
        CancelAll(e);
      }
      if Rank(entities[e].status) < Rank(Ready) {
        FinalEntity(e);
        return;
      }
      if entities[e].client.Some? {
        var ok := SetEntityClient(e, None, entities[e].client.value.primary);
      }
      if immediately {
        DropDestroyTimer(e);
      }
      if entities[e].destroyTimerId > 0 {
        return;
      }
      BeginDestroying(e, isSaveDB, now, saveOk);
    }

    /** `ok`: the set-up of the entity, its script included, succeeds. */
    method CreateEntityWithId(id: nat, hasClient: bool, persistent: bool, ok: bool, now: int) returns (done: bool)
      modifies this
      ensures id == 0 ==> !done && S() == old(S())
      ensures id != 0 ==> done == ok && S() == Created(old(S()), id, hasClient, persistent, ok, now)
    {
      hide Destroy;
      if id == 0 {
        return false;
      }
      entities := entities[id := NEW.(hasClient := hasClient, persistent := persistent)];
      allEntities := allEntities + {id};
      if !ok {
        DestroyOne(id, false, true, now, false);
        return false;
      }
      PutEntity(id, entities[id].(status := Ready));
      return true;
    }

    method SavedOnDestroyCallback(id: nat)
      modifies this
      ensures S() == SaveConfirmed(old(S()), id)
    {
      if id in allEntities && id in entities {
        FinalEntity(id);
      }
    }

    // -------------------------------------------------------------- connections

    method UpdateEntityConnInfo(mb: Mailbox, id: nat, primary: bool) returns (ok: bool)
      modifies this
      ensures S() == Updated(old(S()), mb, id, primary)
      ensures ok <==> id in old(allEntities) && id in old(entities) && Accepts(old(entities)[id], Some(mb))
    {
      hide SetClient;
      if id !in allEntities || id !in entities {
        return false;
      } else if !entities[id].hasClient {
        return false;
      }
      if mb.gate !in connMap {
        connMap := connMap[mb.gate := map[]];
      }
      var clients: map<nat, set<nat>> := connMap[mb.gate];
      if mb.client !in clients {
        clients := clients[mb.client := {}];
      }
      clients := clients[mb.client := clients[mb.client] + {id}];
      connMap := connMap[mb.gate := clients];
      ghost var before: map<nat, set<nat>> := if mb.gate in old(connMap) then old(connMap)[mb.gate] else map[];
      assert clients == before[mb.client := ListedAt(old(connMap), mb) + {id}];
      assert connMap == List(old(connMap), mb, id);
      ok := SetEntityClient(id, Some(mb), primary);
    }

    /** Loses the client of `e` if it exists and, given `mb`, holds it. */
    method Drop(e: nat, mb: Option<Mailbox>)
      modifies this
      ensures S() == DropOne(old(S()), e, mb)
    {
      hide SetClient;
      if e in allEntities && e in entities {
        if mb.None? || (entities[e].client.Some? && entities[e].client.value.mailbox == mb.value) {
          var ok := SetEntityClient(e, None, false);
        }
      }
    }

    /** `order` is the order of the loop over the index. */
    method RemoveEntityConnInfo(mb: Mailbox) returns (ghost order: seq<nat>)
      requires Inv(S())
      modifies this
      ensures Possible(old(S()), RemoveConn(mb, order)) && S() == ConnRemoved(old(S()), mb, order)
      ensures forall e :: !Holds(S(), e, mb)
    {
      hide Inv, DropOne, Dropped, Rises;
      ghost var s := S();
      order := [];
      if mb.gate in connMap {
        if mb.client in connMap[mb.gate] {
          var rest := connMap[mb.gate][mb.client];
          while rest != {}
            invariant S() == DropAll(s, order, Some(mb))
            invariant rest <= ListedAt(s.connMap, mb) && forall e :: e in order <==> e in ListedAt(s.connMap, mb) && e !in rest
            decreases |rest|
          {
            var e :| e in rest;
            Drop(e, Some(mb));
            DropMore(s, order, e, Some(mb));
            order := order + [e];
            rest := rest - {e};
          }
        }
        DropAllIndex(s, order, Some(mb));
        connMap := connMap[mb.gate := connMap[mb.gate] - {mb.client}];
      }
      ConnRemovedKeeps(s, mb, order);
    }

    method RemoveGateEntitiesConn(gate: string) returns (ghost order: seq<nat>)
      requires Inv(S())
      modifies this
      ensures forall e :: e in order <==> exists client :: e in ListedAt(old(connMap), Mailbox(gate, client))
      ensures var s1 := DropAll(old(S()), order, None); S() == s1.(connMap := s1.connMap - {gate})
    {
      hide Inv, DropOne, Dropped, Rises, ListedAt;
      ghost var s := S();
      order := [];
      if gate in connMap {
        var clients := connMap[gate].Keys;
        ghost var all := clients;
        while clients != {}
          invariant S() == DropAll(s, order, None) && connMap == s.connMap && gate in connMap
          invariant clients <= all == connMap[gate].Keys
          invariant forall e :: e in order <==> exists client :: client in all - clients && e in ListedAt(s.connMap, Mailbox(gate, client))
          decreases |clients|
        {
          var client :| client in clients;
          ghost var more := DropClient(gate, client, s, order);
          Visited(s.connMap, gate, all, clients, client, order, more);
          order := order + more;
          clients := clients - {client};
        }
        NotListed(s.connMap, gate);
        connMap := connMap - {gate};
      } else {
        NotListed(s.connMap, gate);
        assert connMap - {gate} == connMap;
      }
    }

    /** The inner loop: the entities listed under one client. */
    method DropClient(gate: string, client: nat, ghost s: Game, ghost before: seq<nat>) returns (ghost more: seq<nat>)
      requires Inv(s) && S() == DropAll(s, before, None) && connMap == s.connMap
      requires gate in connMap && client in connMap[gate]
      modifies this
      ensures S() == DropAll(s, before + more, None) && connMap == s.connMap
      ensures forall e :: e in more <==> e in ListedAt(s.connMap, Mailbox(gate, client))
    {
      hide Inv, DropOne, Dropped, Rises;
      more := [];
      assert before + more == before;
      var rest := connMap[gate][client];
      while rest != {}
        invariant S() == DropAll(s, before + more, None) && connMap == s.connMap
        invariant rest <= ListedAt(s.connMap, Mailbox(gate, client))
        invariant forall e :: e in more <==> e in ListedAt(s.connMap, Mailbox(gate, client)) && e !in rest
        decreases |rest|
      {
        var e :| e in rest;
        Drop(e, None);
        DropMore(s, before + more, e, None);
        assert before + more + [e] == before + (more + [e]);
        DropAllIndex(s, before + (more + [e]), None);
        more := more + [e];
        rest := rest - {e};
      }
    }

    /** A gate's connection is gone. */
    method RemoveGateLink(gate: string) returns (ghost order: seq<nat>)
      requires Inv(S())
      modifies this
      ensures Possible(old(S()), RemoveGate(gate, order)) && S() == GateRemoved(old(S()), gate, order)
      ensures forall e, client :: !Holds(S(), e, Mailbox(gate, client))
    {
      ghost var s := S();
      DownKeeps(s, gate);
      up := up - {gate};
      order := RemoveGateEntitiesConn(gate);
      hide Inv;
      GateRemovedKeeps(s, gate, order);
    }

    // -------------------------------------------------------------- timers

    method OnTimer(id: nat, now: int, expired: bool, repeats: bool, saveOk: bool)
      requires Inv(S()) && id in timers
      modifies this
      ensures S() == TimerFired(old(S()), id, now, expired, repeats, saveOk)
    {
      var e := timers[id].entity;
      assert e in entities;
      hide Inv, SetClient, Destroy;
      match timers[id].kind {
        case SaveTimer =>
          PutEntity(e, entities[e].(saveTimerId := 0));
        case DestroyTimer =>
          Cancel(id);
          PutEntity(e, entities[e].(destroyTimerId := 0));
          DestroyOne(e, true, true, now, saveOk);
        case HeartbeatTimer =>
          if expired {
            var ok := SetEntityClient(e, None, false);
          }
        case ScriptTimer =>
          if !repeats {
            Cancel(id);
          }
          PutEntity(e, if e in allEntities then entities[e].(activeTimerIds := entities[e].activeTimerIds - {id}) else entities[e]);
      }
    }
  }

  lemma DropMore(s: Game, order: seq<nat>, e: nat, mb: Option<Mailbox>)
    ensures DropAll(s, order + [e], mb) == DropOne(DropAll(s, order, mb), e, mb)
  {
    assert (order + [e])[..|order|] == order;
  }

  lemma DropAllIndex(s: Game, order: seq<nat>, mb: Option<Mailbox>)
    requires Inv(s)
    ensures DropAll(s, order, mb).connMap == s.connMap
  {
    DropAllKeeps(s, order, mb);
  }

  lemma NotListed(connMap: map<string, map<nat, set<nat>>>, gate: string)
    ensures gate !in connMap ==> forall client :: ListedAt(connMap, Mailbox(gate, client)) == {}
    ensures gate in connMap ==> forall client :: client !in connMap[gate] ==> ListedAt(connMap, Mailbox(gate, client)) == {}
  {
  }

  lemma Visited(connMap: map<string, map<nat, set<nat>>>, gate: string, all: set<nat>, left: set<nat>, client: nat,
                order: seq<nat>, more: seq<nat>)
    requires client in left && left <= all
    requires forall e :: e in order <==> exists c :: c in all - left && e in ListedAt(connMap, Mailbox(gate, c))
    requires forall e :: e in more <==> e in ListedAt(connMap, Mailbox(gate, client))
    ensures forall e :: e in order + more <==> exists c :: c in all - (left - {client}) && e in ListedAt(connMap, Mailbox(gate, c))
  {
    hide ListedAt;
    assert all - (left - {client}) == all - left + {client};
  }

  lemma CancelAllStays(s: Game, e: nat)
    requires e in s.entities
    ensures
      var s1 := CancelAllTimers(s, e);
      e in s1.entities && s1.entities[e].status == s.entities[e].status && s1.entities[e].client == s.entities[e].client
  {
  }
}
