/** The gate's table of bindings mirrors the game's: the messages about bindings arrive in the
    order they were sent, and a gate applies them one by one. */
module Bindings {
  import opened Common
  import opened Entities
  import opened EntityRuns

  // ---------------------------------------------------------------- the gate

  /** What a message does to the table. Unbinding does not look at the entity. */
  function ApplyMsg(t: map<nat, nat>, m: Msg): map<nat, nat> {
    match m
    case Bind(client, entity) => t[client := entity]
    case Unbind(client, _) => t - {client}
  }

  function Fold(t: map<nat, nat>, msgs: seq<Msg>): map<nat, nat> {
    if msgs == [] then t else ApplyMsg(Fold(t, msgs[..|msgs| - 1]), msgs[|msgs| - 1])
  }

  class GateProxy {
    var clientToGame: map<nat, nat>

    constructor ()
      ensures clientToGame == map[]
    {
      clientToGame := map[];
    }

    method BindEntity(clientId: nat, entityId: nat)
      modifies this
      ensures clientToGame == old(clientToGame)[clientId := entityId]
      ensures clientToGame == ApplyMsg(old(clientToGame), Bind(clientId, entityId))
    {
      clientToGame := clientToGame[clientId := entityId];
    }

    method UnBindEntity(clientId: nat, entityId: nat)
      modifies this
      ensures clientToGame == old(clientToGame) - {clientId}
      ensures clientToGame == ApplyMsg(old(clientToGame), Unbind(clientId, entityId))
    {
      if clientId in clientToGame {
        clientToGame := clientToGame - {clientId};
      }
    }

    /** 0 for a client that is not bound. */
    method GetBindEntity(clientId: nat) returns (entityId: nat)
      ensures entityId == if clientId in clientToGame then clientToGame[clientId] else 0
    {
      if clientId in clientToGame {
        return clientToGame[clientId];
      }
      return 0;
    }

    /** A message arrives; `delivered` are those before it. */
    method Process(m: Msg, ghost delivered: seq<Msg>)
      requires clientToGame == Fold(map[], delivered)
      modifies this
      ensures clientToGame == Fold(map[], delivered + [m])
    {
      match m {
        case Bind(client, entity) => BindEntity(client, entity);
        case Unbind(client, entity) => UnBindEntity(client, entity);
      }
      assert (delivered + [m])[..|delivered|] == delivered;
    }
  }

  lemma {:induction false} FoldConcat(t: map<nat, nat>, a: seq<Msg>, b: seq<Msg>)
    ensures Fold(t, a + b) == Fold(Fold(t, a), b)
  {
    if b == [] {
      assert a + b == a;
    } else {
      FoldConcat(t, a, b[..|b| - 1]);
      assert (a + b)[..|a + b| - 1] == a + b[..|b| - 1];
    }
  }

  // ---------------------------------------------------------------- the mirror

  /** The gate's table once everything sent to it has arrived. */
  function View(s: Game, gate: string): map<nat, nat> {
    Fold(map[], SentTo(s, gate))
  }

  predicate Says(t: map<nat, nat>, client: nat, e: nat) {
    client in t && t[client] == e
  }

  ghost predicate MirrorAt(s: Game, gate: string) {
    forall e, client :: Holds(s, e, Mailbox(gate, client)) <==> Says(View(s, gate), client, e)
  }

  /** At every gate whose link is up the table will be exactly the game's bindings. */
  ghost predicate Mirrored(s: Game) {
    forall gate :: gate in s.up ==> MirrorAt(s, gate)
  }

  /** No other entity holds the mailbox. */
  ghost predicate Unshared(s: Game, e: nat, mb: Mailbox) {
    forall d :: d != e ==> !Holds(s, d, mb)
  }

  /** What setClient tells a gate. */
  function MsgsFor(x: Entity, e: nat, c: Option<Mailbox>, gate: string): seq<Msg> {
    if !Accepts(x, c) || SameClient(x, c) then []
    else (if x.client.Some? && x.client.value.mailbox.gate == gate then [Unbind(x.client.value.mailbox.client, e)] else [])
         + (if c.Some? && c.value.gate == gate then [Bind(c.value.client, e)] else [])
  }

  lemma LetGoSends(s: Game, e: nat, forGood: bool, gate: string)
    requires e in s.entities && s.entities[e].client.Some?
    ensures
      var mb := s.entities[e].client.value.mailbox;
      SentTo(LetGo(s, e, forGood), gate) ==
      SentTo(s, gate) + if gate in s.up && mb.gate == gate then [Unbind(mb.client, e)] else []
    ensures LetGo(s, e, forGood).up == s.up && e in LetGo(s, e, forGood).entities
  {
  }

  lemma LostSends(s: Game, e: nat, gate: string)
    requires e in s.entities
    ensures SentTo(Lost(s, e), gate) == SentTo(s, gate)
  {
  }

  lemma PutSends(s: Game, e: nat, x: Entity, gate: string)
    ensures SentTo(Put(s, e, x), gate) == SentTo(s, gate)
  {
  }

  /** Timers say nothing to the gates. */
  lemma TimersSendNothing(s: Game, e: nat, gate: string)
    requires e in s.entities
    ensures SentTo(WithHeartbeat(s, e), gate) == SentTo(s, gate) && WithHeartbeat(s, e).up == s.up
    ensures SentTo(WithoutDestroyTimer(s, e), gate) == SentTo(s, gate) && WithoutDestroyTimer(s, e).up == s.up
    ensures SentTo(WithSaveTimer(s, e), gate) == SentTo(s, gate)
  {
  }

  lemma SendSends(s: Game, to: string, m: Msg, gate: string)
    ensures SentTo(Send(s, to, m), gate) == SentTo(s, gate) + if gate in s.up && to == gate then [m] else []
    ensures Send(s, to, m).entities == s.entities
  {
  }

  lemma GainedSends(s: Game, e: nat, mb: Mailbox, primary: bool, gate: string)
    requires e in s.entities
    ensures SentTo(Gained(s, e, mb, primary), gate) ==
            SentTo(s, gate) + if gate in s.up && mb.gate == gate then [Bind(mb.client, e)] else []
  {
    hide SentTo, Send, WithHeartbeat, WithoutDestroyTimer, WithSaveTimer;
    var x := s.entities[e].(client := Some(EntityClient(mb, primary)));
    var s1 := Put(s, e, x);
    PutSends(s, e, x, gate);
    TimersSendNothing(s1, e, gate);
    var s2 := if primary then WithHeartbeat(s1, e) else s1;
    TimersSendNothing(s2, e, gate);
    var s3 := WithoutDestroyTimer(s2, e);
    SendSends(s3, mb.gate, Bind(mb.client, e), gate);
    TimersSendNothing(Send(s3, mb.gate, Bind(mb.client, e)), e, gate);
  }

  lemma SetClientSends(s: Game, e: nat, c: Option<Mailbox>, primary: bool, gate: string)
    requires e in s.entities
    ensures SentTo(SetClient(s, e, c, primary), gate) ==
            SentTo(s, gate) + if gate in s.up then MsgsFor(s.entities[e], e, c, gate) else []
    ensures
      var x := s.entities[e];
      (c.Some? ==> x.status == Ready) && x.hasClient && (x.client.Some? ==> c != Some(x.client.value.mailbox)) && gate in s.up ==>
        SentTo(SetClient(s, e, c, primary), gate) == SentTo(s, gate)
        + ((if x.client.Some? && x.client.value.mailbox.gate == gate then [Unbind(x.client.value.mailbox.client, e)] else [])
           + (if c.Some? && c.value.gate == gate then [Bind(c.value.client, e)] else []))
  {
    var x := s.entities[e];
    hide LetGo, Gained, Lost, Accepts, SentTo;
    if Accepts(x, c) {
      if SameClient(x, c) {
        PutSends(s, e, x.(client := Some(x.client.value.(primary := primary))), gate);
      } else {
        if x.client.Some? {
          LetGoSends(s, e, c.None?, gate);
        }
        var s1 := if x.client.Some? then LetGo(s, e, c.None?) else s;
        if c.Some? {
          GainedSends(s1, e, c.value, primary, gate);
        } else {
          LostSends(s1, e, gate);
        }
      }
    }
  }

  lemma FoldOne(t: map<nat, nat>, m: Msg)
    ensures Fold(t, [m]) == ApplyMsg(t, m)
  {
    assert [m][..0] == [];
  }

  lemma FoldTwo(t: map<nat, nat>, m: Msg, n: Msg)
    ensures Fold(t, [m, n]) == ApplyMsg(ApplyMsg(t, m), n)
  {
    assert [m, n][..1] == [m];
    FoldOne(t, m);
  }

  /** The view of a gate after setClient, entry by entry. */
  lemma ViewAfter(s: Game, e: nat, c: Option<Mailbox>, primary: bool, gate: string)
    requires e in s.entities && gate in s.up
    ensures
      var x, t := s.entities[e], View(s, gate);
      var t' := View(SetClient(s, e, c, primary), gate);
      var gone := Accepts(x, c) && !SameClient(x, c) && x.client.Some? && x.client.value.mailbox.gate == gate;
      var new_ := Accepts(x, c) && !SameClient(x, c) && c.Some? && c.value.gate == gate;
      && (new_ ==> Says(t', c.value.client, e))
      && forall client, d :: !(new_ && client == c.value.client) ==>
           (Says(t', client, d) <==> Says(t, client, d) && !(gone && client == x.client.value.mailbox.client))
  {
    hide SetClient, SentTo, MsgsFor, Fold;
    var x, t := s.entities[e], View(s, gate);
    SetClientSends(s, e, c, primary, gate);
    FoldConcat(map[], SentTo(s, gate), MsgsFor(x, e, c, gate));
    FoldMsgs(t, x, e, c, gate);
  }

  lemma FoldMsgs(t: map<nat, nat>, x: Entity, e: nat, c: Option<Mailbox>, gate: string)
    ensures
      var gone := Accepts(x, c) && !SameClient(x, c) && x.client.Some? && x.client.value.mailbox.gate == gate;
      var new_ := Accepts(x, c) && !SameClient(x, c) && c.Some? && c.value.gate == gate;
      var t1 := if gone then t - {x.client.value.mailbox.client} else t;
      Fold(t, MsgsFor(x, e, c, gate)) == if new_ then t1[c.value.client := e] else t1
  {
    if x.client.Some? {
      var m := Unbind(x.client.value.mailbox.client, e);
      FoldOne(t, m);
      if c.Some? {
        FoldTwo(t, m, Bind(c.value.client, e));
        assert [m] + [Bind(c.value.client, e)] == [m, Bind(c.value.client, e)];
      }
    }
    if c.Some? {
      FoldOne(t, Bind(c.value.client, e));
    }
  }

  /** Taking or giving up a client keeps the mirror exactly when the client is not shared. */
  lemma SetClientMirror(s: Game, e: nat, c: Option<Mailbox>, primary: bool)
    requires Inv(s) && Mirrored(s) && e in s.entities && (c.Some? ==> e in ListedAt(s.connMap, c.value))
    ensures Mirrored(SetClient(s, e, c, primary)) <==>
            (Accepts(s.entities[e], c) && c.Some? && c.value.gate in s.up ==> Unshared(s, e, c.value))
  {
    var x, s' := s.entities[e], SetClient(s, e, c, primary);
    SetClientKeeps(s, e, c, primary);
    hide Inv, SetClient, View;
    if Accepts(x, c) && c.Some? && c.value.gate in s.up && !Unshared(s, e, c.value) {
      var d :| d != e && Holds(s, d, c.value);
      assert Holds(s', d, c.value) && Holds(s', e, c.value);
      assert !MirrorAt(s', c.value.gate);
    } else {
      forall gate | gate in s'.up
        ensures MirrorAt(s', gate)
      {
        GateMirror(s, e, c, primary, gate);
      }
    }
  }

  lemma GateMirror(s: Game, e: nat, c: Option<Mailbox>, primary: bool, gate: string)
    requires Inv(s) && MirrorAt(s, gate) && gate in s.up && e in s.entities && (c.Some? ==> e in ListedAt(s.connMap, c.value))
    requires Accepts(s.entities[e], c) && c.Some? && c.value.gate == gate ==> Unshared(s, e, c.value)
    ensures MirrorAt(SetClient(s, e, c, primary), gate)
  {
    var x, s' := s.entities[e], SetClient(s, e, c, primary);
    SetClientKeeps(s, e, c, primary);
    ViewAfter(s, e, c, primary, gate);
    assert Accepts(x, c) || c.Some? || x.client == None by {
      assert EntityOk(x, e, s.timers);
    }
    hide Inv, SetClient, View, Rises;
    var t := View(s', gate);
    forall d, client
      ensures Holds(s', d, Mailbox(gate, client)) <==> Says(t, client, d)
    {
      assert Holds(s, d, Mailbox(gate, client)) <==> Says(View(s, gate), client, d);
      assert Holds(s, e, Mailbox(gate, client)) <==> Says(View(s, gate), client, e);
      if d != e {
        assert Holds(s', d, Mailbox(gate, client)) <==> Holds(s, d, Mailbox(gate, client));
      }
      assert c.Some? && c.value.gate == gate && c.value.client == client ==> c.value == Mailbox(gate, client);
    }
  }
  // ---------------------------------------------------------------- every event

  /** Neither bindings nor messages change; links may go down. */
  ghost predicate SameBindings(s: Game, s': Game) {
    && s'.sent == s.sent && s'.up <= s.up
    && (forall d, mb :: Holds(s', d, mb) <==> Holds(s, d, mb))
  }

  lemma SameMirror(s: Game, s': Game)
    requires Mirrored(s) && SameBindings(s, s')
    ensures Mirrored(s')
  {
    hide Holds;
    forall gate | gate in s'.up
      ensures MirrorAt(s', gate)
    {
      assert MirrorAt(s, gate);
      assert View(s', gate) == View(s, gate);
    }
  }

  lemma PutSame(s: Game, s': Game, e: nat)
    requires e in s.entities && e in s'.entities && s'.entities == s.entities[e := s'.entities[e]]
    requires s'.entities[e].client == s.entities[e].client && s'.sent == s.sent && s'.up <= s.up
    ensures SameBindings(s, s')
  {
  }

  lemma StartDestroyingSame(s: Game, e: nat, isSaveDB: bool, now: int, saveOk: bool)
    requires e in s.entities
    ensures SameBindings(s, StartDestroying(s, e, isSaveDB, now, saveOk))
  {
    PutSame(s, StartDestroying(s, e, isSaveDB, now, saveOk), e);
  }

  lemma DestroyMirror(s: Game, e: nat, isSaveDB: bool, immediately: bool, now: int, saveOk: bool)
    requires Inv(s) && Mirrored(s) && e in s.entities
    ensures Mirrored(Destroy(s, e, isSaveDB, immediately, now, saveOk))
  {
    var x := s.entities[e];
    assert EntityOk(x, e, s.timers);
    hide Inv, Mirrored, SameBindings, EntityOk, SetClient, StartDestroying;
    if Rank(x.status) > Rank(Ready) {
      StartDestroyingSame(s, e, isSaveDB, now, saveOk);
      if !(x.status == Destroyed || now < x.destroyingSince + 10) {
        SameMirror(s, StartDestroying(s, e, isSaveDB, now, saveOk));
      }
    } else if x.status == Create {
      var s' := Final(CancelAllTimers(s, e), e);
      PutSame(s, s', e);
      SameMirror(s, s');
    } else {
      ReadyMirror(s, e, isSaveDB, immediately, now, saveOk);
    }
  }

  lemma ReadyMirror(s: Game, e: nat, isSaveDB: bool, immediately: bool, now: int, saveOk: bool)
    requires Inv(s) && Mirrored(s) && e in s.entities && s.entities[e].status == Ready
    ensures Mirrored(Destroy(s, e, isSaveDB, immediately, now, saveOk))
  {
    hide Inv, Mirrored, SameBindings, Destroy, Unbound, StartDestroying, PartOk;
    UnboundMirror(s, e);
    UnboundOk(s, e);
    DestroyOfReady(s, e, isSaveDB, immediately, now, saveOk);
    var s2 := Unbound(s, e);
    WithoutTimerSame(s2, e);
    var s3 := if immediately then WithoutDestroyTimer(s2, e) else s2;
    if immediately {
      SameMirror(s2, s3);
    }
    StartDestroyingSame(s3, e, isSaveDB, now, saveOk);
    SameMirror(s3, StartDestroying(s3, e, isSaveDB, now, saveOk));
  }

  lemma WithoutTimerSame(s: Game, e: nat)
    requires e in s.entities
    ensures SameBindings(s, WithoutDestroyTimer(s, e)) && e in WithoutDestroyTimer(s, e).entities
  {
  }

  lemma UnboundMirror(s: Game, e: nat)
    requires Inv(s) && Mirrored(s) && e in s.entities && s.entities[e].status == Ready
    ensures Mirrored(Unbound(s, e))
  {
    PartOf(s, e);
    CancelAllTimersOk(s, e);
    var s1 := CancelAllTimers(s, e);
    PutSame(s, s1, e);
    SameMirror(s, s1);
    CancelAllKeeps(s, e);
    hide Inv, Mirrored, SetClient, CancelAllTimers, PartOk;
    if s.entities[e].client.Some? {
      SetClientMirror(s1, e, None, s.entities[e].client.value.primary);
    }
  }

  lemma CancelAllKeeps(s: Game, e: nat)
    requires Inv(s) && e in s.entities && s.entities[e].status == Ready
    ensures Inv(CancelAllTimers(s, e))
  {
    PartOf(s, e);
    CancelAllTimersOk(s, e);
    var s1 := CancelAllTimers(s, e);
    assert NoTimers(e, s.timers) ==> NoTimers(e, s1.timers);
    hide Inv, PartOk, Only, NoTimers, CancelAllTimers;
    TweakKeeps(s, s1, e);
  }

  lemma DropOneMirror(s: Game, e: nat, mb: Option<Mailbox>)
    requires Inv(s) && Mirrored(s)
    ensures Mirrored(DropOne(s, e, mb))
  {
    if e in s.registered && e in s.entities {
      hide Inv, Mirrored, SetClient;
      SetClientMirror(s, e, None, false);
    }
  }

  lemma {:induction false} DropAllMirror(s: Game, order: seq<nat>, mb: Option<Mailbox>)
    requires Inv(s) && Mirrored(s)
    ensures Mirrored(DropAll(s, order, mb))
  {
    if order != [] {
      DropAllMirror(s, order[..|order| - 1], mb);
      DropAllKeeps(s, order[..|order| - 1], mb);
      hide Inv, Mirrored, DropOne, Dropped, Rises;
      DropOneMirror(DropAll(s, order[..|order| - 1], mb), order[|order| - 1], mb);
    }
  }

  /** A binding request keeps the mirror exactly when no other entity holds the client. */
  lemma UpdatedMirror(s: Game, mb: Mailbox, id: nat, primary: bool)
    requires Inv(s) && Mirrored(s)
    ensures Mirrored(Updated(s, mb, id, primary)) <==>
            (id in s.registered && Accepts(s.entities[id], Some(mb)) && mb.gate in s.up ==> Unshared(s, id, mb))
  {
    if id in s.registered && s.entities[id].hasClient {
      var s1 := s.(connMap := List(s.connMap, mb, id));
      PutSame(s, s1, id);
      SameMirror(s, s1);
      ListKeeps(s, mb, id);
      assert Unshared(s1, id, mb) <==> Unshared(s, id, mb);
      hide Inv, Mirrored, SetClient, Unshared, List;
      SetClientMirror(s1, id, Some(mb), primary);
    }
  }

  lemma CreatedMirror(s: Game, id: nat, hasClient: bool, persistent: bool, ok: bool, now: int)
    requires Inv(s) && Mirrored(s) && id !in s.entities
    ensures Mirrored(Created(s, id, hasClient, persistent, ok, now))
  {
    var x := NEW.(hasClient := hasClient, persistent := persistent);
    var s1 := s.(entities := s.entities[id := x], registered := s.registered + {id});
    var s' := Created(s, id, hasClient, persistent, ok, now);
    assert s'.entities == s.entities[id := s'.entities[id]] && s'.entities[id].client == None && s'.sent == s.sent && s'.up == s.up;
    hide Created, Inv;
    SameMirror(s, s');
  }

  lemma TimerFiredMirror(s: Game, id: nat, now: int, expired: bool, repeats: bool, saveOk: bool)
    requires Inv(s) && Mirrored(s) && id in s.timers
    ensures Mirrored(TimerFired(s, id, now, expired, repeats, saveOk))
  {
    var e := s.timers[id].entity;
    assert e in s.entities;
    var x, s' := s.entities[e], TimerFired(s, id, now, expired, repeats, saveOk);
    match s.timers[id].kind {
      case HeartbeatTimer =>
        SetClientMirror(s, e, None, false);
      case DestroyTimer =>
        var s1 := Put(CancelTimer(s, id), e, x.(destroyTimerId := 0));
        DestroyFired(s, e, id);
        hide Inv, Mirrored, Destroy;
        PutSame(s, s1, e);
        SameMirror(s, s1);
        DestroyMirror(s1, e, true, true, now, saveOk);
      case SaveTimer =>
        hide Inv, Mirrored;
        PutSame(s, s', e);
        SameMirror(s, s');
      case ScriptTimer =>
        hide Inv, Mirrored;
        PutSame(s, s', e);
        SameMirror(s, s');
    }
  }

  /** A request meets an entity whose wanted client no other entity holds. */
  ghost predicate Fair(s: Game, ev: Event) {
    ev.UpdateConn? ==> Unshared(s, ev.id, ev.mb)
  }

  lemma ApplyMirror(s: Game, ev: Event)
    requires Inv(s) && Mirrored(s) && Possible(s, ev) && Fair(s, ev)
    ensures Mirrored(Apply(s, ev))
  {
    hide Inv, Mirrored, Unshared;
    match ev {
      case CreateEntity(id, hasClient, persistent, ok, now) => CreatedMirror(s, id, hasClient, persistent, ok, now);
      case UpdateConn(mb, id, primary) => UpdatedMirror(s, mb, id, primary);
      case RemoveConn(mb, order) =>
        DropAllMirror(s, order, Some(mb));
        RelistedMirror(DropAll(s, order, Some(mb)), ConnRemoved(s, mb, order));
      case RemoveGate(gate, order) =>
        var s0 := s.(up := s.up - {gate});
        DownKeeps(s, gate);
        RelistedMirror(s, s0);
        DropAllMirror(s0, order, None);
        RelistedMirror(DropAll(s0, order, None), GateRemoved(s, gate, order));
      case DestroyEntity(id, isSaveDB, immediately, now, saveOk) => DestroyMirror(s, id, isSaveDB, immediately, now, saveOk);
      case Fire(timer, now, expired, repeats, saveOk) => TimerFiredMirror(s, timer, now, expired, repeats, saveOk);
      case Saved(id) =>
        if id in s.registered && id in s.entities {
          PutSame(s, Apply(s, ev), id);
          SameMirror(s, Apply(s, ev));
        }
      case AddScriptTimer(id) =>
        if id in s.registered && id in s.entities {
          PutSame(s, Apply(s, ev), id);
          SameMirror(s, Apply(s, ev));
        }
      case CancelScriptTimer(id, timer) =>
        if id in s.registered && id in s.entities {
          PutSame(s, Apply(s, ev), id);
          SameMirror(s, Apply(s, ev));
        }
    }
  }

  lemma RelistedMirror(s: Game, s': Game)
    requires Mirrored(s) && s'.entities == s.entities && s'.sent == s.sent && s'.up <= s.up
    ensures Mirrored(s')
  {
    SameMirror(s, s');
  }

  // ---------------------------------------------------------------- runs

  ghost predicate FairRun(s: Game, events: seq<Event>)
    decreases |events|
  {
    events == [] || (Fair(s, events[0]) && FairRun(Apply(s, events[0]), events[1..]))
  }

  lemma {:induction false} MirrorRun(s: Game, events: seq<Event>)
    requires Inv(s) && Mirrored(s) && PossibleRun(s, events) && FairRun(s, events)
    ensures Mirrored(Run(s, events))
    decreases |events|
  {
    if events != [] {
      ApplyKeeps(s, events[0]);
      ApplyMirror(s, events[0]);
      hide Inv, Mirrored, Apply, Possible, Fair, Rises;
      MirrorRun(Apply(s, events[0]), events[1..]);
    }
  }

  /** Over every run in which no client is asked for while another entity holds it: however many
      of the messages a gate has received, applying the rest to its table gives exactly the
      game's bindings at that gate, as long as its link is up. */
  lemma BindingAgreement(gates: set<string>, events: seq<Event>, gate: string, n: nat)
    requires PossibleRun(Start(gates), events) && FairRun(Start(gates), events)
    requires gate in Run(Start(gates), events).up && n <= |SentTo(Run(Start(gates), events), gate)|
    ensures
      var s := Run(Start(gates), events);
      var sent := SentTo(s, gate);
      forall e, client :: Holds(s, e, Mailbox(gate, client)) <==> Says(Fold(Fold(map[], sent[..n]), sent[n..]), client, e)
  {
    var s := Run(Start(gates), events);
    var sent := SentTo(s, gate);
    MirrorRun(Start(gates), events);
    FoldConcat(map[], sent[..n], sent[n..]);
    assert sent[..n] + sent[n..] == sent;
    assert MirrorAt(s, gate);
  }
}
