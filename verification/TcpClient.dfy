/** The client's receive and send buffers and its tick, and the reassembly of a byte stream
    into the messages that were sent, however the stream was chopped up. */
module TcpClients {
  import opened Common
  import opened Protocol
  import opened RingBuffers

  // ---------------------------------------------------------------- the receiving side as a value

  /** What has arrived but is not yet a delivered message, the messages handed to the handler,
      and whether a reconnect was asked for or the decoder faulted. */
  datatype Inbox = Inbox(pending: seq<byte>, delivered: seq<seq<byte>>, reconnect: bool, faulted: bool)

  function Received(b: Inbox, chunk: seq<byte>): Inbox {
    b.(pending := b.pending + chunk)
  }

  /** The receiving half of one tick: at most one message. */
  function Ticked(b: Inbox): Inbox {
    match Decode(b.pending)
    case NeedMore => b
    case TooLong => b.(reconnect := true)
    case SliceFault => b.(faulted := true)
    case Frame(n, m) =>
      FrameIsEncoding(b.pending);
      b.(pending := b.pending[n..], delivered := b.delivered + [m])
  }

  lemma Regroup(a: seq<byte>, b: seq<byte>, n: nat)
    requires n <= |b|
    ensures (a + b[..n]) + b[n..] == a + b
  {
  }

  class TcpClient {
    const inBuffer: RingBuffer
    const outBuffer: RingBuffer
    var delivered: seq<seq<byte>>
    var reconnect: bool
    var faulted: bool
    /** Every byte handed to the socket. */
    var sent: seq<byte>

    ghost predicate Valid()
      reads this, inBuffer, outBuffer
    {
      && inBuffer != outBuffer && inBuffer.buf != outBuffer.buf
      && inBuffer.Valid() && outBuffer.Valid()
    }

    ghost function In(): Inbox
      requires Valid()
      reads this, inBuffer, outBuffer, inBuffer.buf
    {
      Inbox(inBuffer.Contents(), delivered, reconnect, faulted)
    }

    /** Everything ever queued for sending: what the socket took and what still waits. */
    ghost function Out(): seq<byte>
      requires Valid()
      reads this, inBuffer, outBuffer, outBuffer.buf
    {
      sent + outBuffer.Contents()
    }

    constructor ()
      ensures Valid() && fresh(inBuffer) && fresh(outBuffer) && fresh(inBuffer.buf) && fresh(outBuffer.buf)
      ensures In() == Inbox([], [], false, false) && Out() == []
    {
      var i := new RingBuffer(0);
      var o := new RingBuffer(0);
      inBuffer, outBuffer := i, o;
      delivered, reconnect, faulted, sent := [], false, false, [];
    }

    /** One pass of the receive loop: `chunk` is what the socket read returned. Fails only where
        the buffer cannot grow any further. */
    method Receive(chunk: seq<byte>) returns (ok: bool)
      requires Valid()
      modifies inBuffer, inBuffer.buf
      ensures Valid()
      ensures !ok ==> |old(inBuffer.Contents())| + |chunk| > MAX_INT_HEAD_BIT
      ensures In() == if ok then Received(old(In()), chunk) else old(In())
      ensures Out() == old(Out())
      ensures inBuffer.buf == old(inBuffer.buf) || fresh(inBuffer.buf)
    {
      ok := inBuffer.Write(chunk);
    }

    /** Frames a message and queues it; a message too long to frame is refused. */
    method Send(m: seq<byte>) returns (r: Result<nat, EncodeError>, ok: bool)
      requires Valid()
      modifies outBuffer, outBuffer.buf
      ensures Valid()
      ensures r.Err? <==> Encode(m).Err?
      ensures r.Ok? && ok ==> Out() == old(Out()) + Encode(m).value
      ensures r.Err? || !ok ==> Out() == old(Out())
      ensures In() == old(In())
      ensures outBuffer.buf == old(outBuffer.buf) || fresh(outBuffer.buf)
    {
      match Encode(m) {
        case Err(e) => return Err(e), true;
        case Ok(data) =>
          var fits := outBuffer.Write(data);
          ghost var was := old(outBuffer.Contents());
          assert fits ==> sent + (was + data) == (sent + was) + data;
          return Ok(|data|), fits;
      }
    }

    /** One tick of a connected client. `wrote` is what the socket answers to the write, if one
        is made: an error, or how many bytes it took. */
    method Tick(wrote: Option<nat>)
      requires Valid()
      requires wrote.Some? ==> wrote.value <= |outBuffer.Contents()|
      modifies this, inBuffer, outBuffer
      ensures Valid()
      ensures In() == Ticked(old(In()))
      ensures Out() == old(Out())
      ensures !old(Ticked(In())).faulted && wrote.Some? ==> |sent| == |old(sent)| + wrote.value
    {
      TickIn();
      if !faulted {
        TickOut(wrote);
      }
    }

    method TickIn()
      requires Valid()
      modifies this, inBuffer
      ensures Valid() && outBuffer.Valid()
      ensures In() == Ticked(old(In())) && sent == old(sent)
      ensures inBuffer.buf == old(inBuffer.buf) || fresh(inBuffer.buf)
    {
      hide Between, RingBuffer.Contents;
      var head, tail := inBuffer.LazyReadAll();
      var buf := if tail != [] then head + tail else head;
      assert buf == inBuffer.Contents();
      match Decode(buf) {
        case NeedMore =>
        case TooLong => reconnect := true;
        case SliceFault => faulted := true;
        case Frame(shiftN, data) =>
          FrameIsEncoding(buf);
          delivered := delivered + [data];
          inBuffer.Shift(shiftN);
      }
    }

    method TickOut(wrote: Option<nat>)
      requires Valid()
      requires wrote.Some? ==> wrote.value <= |outBuffer.Contents()|
      modifies this`sent, outBuffer
      ensures Valid()
      ensures In() == old(In()) && Out() == old(Out())
      ensures sent == old(sent) + if wrote.Some? then old(outBuffer.Contents())[..wrote.value] else []
      ensures outBuffer.buf == old(outBuffer.buf) || fresh(outBuffer.buf)
    {
      hide Between, RingBuffer.Contents;
      if outBuffer.Length() > 0 {
        var head, tail := outBuffer.LazyReadAll();
        var buf := if tail != [] then head + tail else head;
        if wrote.Some? {
          var n := wrote.value;
          assert buf == outBuffer.Contents();
          Regroup(sent, buf, n);
          sent := sent + buf[..n];
          outBuffer.Shift(n);
        }
      }
    }
  }

  // ---------------------------------------------------------------- runs of the receiving side

  datatype Event = Recv(chunk: seq<byte>) | Tick

  const EMPTY_INBOX := Inbox([], [], false, false)

  function Apply(b: Inbox, e: Event): Inbox {
    match e
    case Recv(c) => Received(b, c)
    case Tick => Ticked(b)
  }

  function Run(events: seq<Event>): Inbox {
    if events == [] then EMPTY_INBOX
    else Apply(Run(events[..|events| - 1]), events[|events| - 1])
  }

  /** All bytes received in a run. */
  function Bytes(events: seq<Event>): seq<byte> {
    if events == [] then []
    else Bytes(events[..|events| - 1]) + match events[|events| - 1] case Recv(c) => c case Tick => []
  }

  /** The byte stream of a sequence of messages. */
  function Stream(ms: seq<seq<byte>>): seq<byte>
    requires forall m :: m in ms ==> Encode(m).Ok?
  {
    if ms == [] then [] else Encode(ms[0]).value + Stream(ms[1..])
  }

  /** How many messages come before the first one that is too long for the receiver. */
  function Deliverable(ms: seq<seq<byte>>): (k: nat)
    ensures k <= |ms|
    ensures forall i :: 0 <= i < k ==> Fits(ms[i])
    ensures k < |ms| ==> !Fits(ms[k])
  {
    if ms == [] || !Fits(ms[0]) then 0 else 1 + Deliverable(ms[1..])
  }

  lemma {:induction false} StreamSplit(ms: seq<seq<byte>>, k: nat)
    requires forall m :: m in ms ==> Encode(m).Ok?
    requires k <= |ms|
    ensures Stream(ms) == Stream(ms[..k]) + Stream(ms[k..])
  {
    if k == 0 {
      assert ms[k..] == ms;
    } else {
      StreamSplit(ms[1..], k - 1);
      assert ms[1..][..k - 1] == ms[..k][1..];
      assert ms[1..][k - 1..] == ms[k..];
    }
  }

  /** The receiver after any part of a stream: `k` messages delivered, the rest of the received
      bytes pending. */
  ghost predicate InStep(ms: seq<seq<byte>>, b: Inbox, bytes: seq<byte>)
    requires forall m :: m in ms ==> Encode(m).Ok?
  {
    var k := |b.delivered|;
    && k <= Deliverable(ms)
    && b.delivered == ms[..k]
    && Stream(ms[..k]) + b.pending == bytes
    && !b.faulted
    && (b.reconnect ==> k == Deliverable(ms) < |ms|)
  }

  lemma PendingIsStream(ms: seq<seq<byte>>, b: Inbox, bytes: seq<byte>)
    requires forall m :: m in ms ==> Encode(m).Ok?
    requires InStep(ms, b, bytes) && bytes <= Stream(ms)
    ensures b.pending <= Stream(ms[|b.delivered|..])
  {
    var k := |b.delivered|;
    StreamSplit(ms, k);
    var done := Stream(ms[..k]);
    assert bytes[|done|..] == b.pending;
    assert Stream(ms)[|done|..] == Stream(ms[k..]);
  }

  /** What the decoder sees at the front of the pending bytes. */
  lemma PendingDecodes(ms: seq<seq<byte>>, pending: seq<byte>)
    requires forall m :: m in ms ==> Encode(m).Ok?
    requires pending <= Stream(ms)
    ensures pending == [] ==> Decode(pending) == NeedMore
    ensures ms != [] && |pending| < MESSAGE_HEAD_LEN + |ms[0]| ==> Decode(pending) == NeedMore
    ensures ms != [] && |pending| >= MESSAGE_HEAD_LEN + |ms[0]| ==>
              && Encode(ms[0]).value <= pending
              && Decode(pending) == if Fits(ms[0]) then Frame(MESSAGE_HEAD_LEN + |ms[0]|, ms[0]) else TooLong
  {
    if ms != [] {
      var e := Encode(ms[0]).value;
      if |pending| < |e| {
        assert pending == e[..|pending|];
        PartialFrame(ms[0], pending);
      } else {
        assert pending == e + pending[|e|..];
        RoundTrip(ms[0], pending[|e|..]);
      }
    }
  }

  /** Moving one whole message from the pending bytes to the delivered messages. */
  lemma DeliverInStep(ms: seq<seq<byte>>, b: Inbox, bytes: seq<byte>)
    requires forall m :: m in ms ==> Encode(m).Ok?
    requires InStep(ms, b, bytes)
    requires var k := |b.delivered|; k < |ms| && Fits(ms[k]) && Encode(ms[k]).value <= b.pending
    ensures
      var k := |b.delivered|;
      InStep(ms, b.(pending := b.pending[MESSAGE_HEAD_LEN + |ms[k]|..], delivered := b.delivered + [ms[k]]), bytes)
  {
    var k := |b.delivered|;
    var e := Encode(ms[k]).value;
    assert b.pending == e + b.pending[|e|..];
    assert ms[..k + 1] == ms[..k] + [ms[k]];
    StreamSplit(ms[..k + 1], k);
    assert ms[..k + 1][..k] == ms[..k] && ms[..k + 1][k..] == [ms[k]];
    assert Stream([ms[k]]) == e;
    assert Stream(ms[..k + 1]) + b.pending[|e|..] == Stream(ms[..k]) + b.pending;
  }

  /** One tick keeps the receiver in step. */
  lemma TickInStep(ms: seq<seq<byte>>, b: Inbox, bytes: seq<byte>)
    requires forall m :: m in ms ==> Encode(m).Ok?
    requires InStep(ms, b, bytes) && bytes <= Stream(ms)
    ensures InStep(ms, Ticked(b), bytes)
  {
    var k := |b.delivered|;
    PendingIsStream(ms, b, bytes);
    PendingDecodes(ms[k..], b.pending);
    if k < |ms| && |b.pending| >= MESSAGE_HEAD_LEN + |ms[k]| && Fits(ms[k]) {
      DeliverInStep(ms, b, bytes);
    }
  }

  /** With the whole stream received, a tick delivers the next message if it fits. */
  lemma TickDelivers(ms: seq<seq<byte>>, b: Inbox)
    requires forall m :: m in ms ==> Encode(m).Ok?
    requires InStep(ms, b, Stream(ms))
    ensures |b.delivered| < Deliverable(ms) ==> |Ticked(b).delivered| == |b.delivered| + 1
    ensures |b.delivered| <= |Ticked(b).delivered|
    ensures |b.delivered| == Deliverable(ms) < |ms| ==> Ticked(b).reconnect
  {
    var k := |b.delivered|;
    StreamSplit(ms, k);
    PendingIsStream(ms, b, Stream(ms));
    assert |b.pending| == |Stream(ms[k..])|;
    PendingDecodes(ms[k..], b.pending);
    if k < |ms| {
      assert Stream(ms[k..]) == Encode(ms[k]).value + Stream(ms[k..][1..]);
    }
  }

  /** Stream reassembly: for any messages the sender can frame, any chunking of their encodings
      and any interleaving with ticks, the delivered messages are a prefix of those sent, never
      going past the first over-long one, and the buffer holds exactly the received bytes that
      are not delivered. */
  lemma {:induction false} Reassembly(ms: seq<seq<byte>>, events: seq<Event>)
    requires forall m :: m in ms ==> Encode(m).Ok?
    requires Bytes(events) <= Stream(ms)
    ensures InStep(ms, Run(events), Bytes(events))
  {
    if events != [] {
      var prefix := events[..|events| - 1];
      var e := events[|events| - 1];
      Reassembly(ms, prefix);
      var b := Run(prefix);
      match e
      case Tick => TickInStep(ms, b, Bytes(prefix));
      case Recv(c) =>
        var k := |b.delivered|;
        assert Stream(ms[..k]) + (b.pending + c) == (Stream(ms[..k]) + b.pending) + c;
    } else {
      assert ms[..0] == [];
    }
  }

  function Ticks(n: nat): seq<Event> {
    seq(n, _ => Tick)
  }

  lemma RunLast(events: seq<Event>, e: Event)
    ensures Run(events + [e]) == Apply(Run(events), e)
    ensures Bytes(events + [e]) == Bytes(events) + if e.Recv? then e.chunk else []
  {
    assert (events + [e])[..|events|] == events;
  }

  /** Once everything has been received, one tick per message delivers every deliverable message. */
  lemma {:induction false} EnoughTicks(ms: seq<seq<byte>>, events: seq<Event>, n: nat)
    requires forall m :: m in ms ==> Encode(m).Ok?
    requires Bytes(events) == Stream(ms)
    ensures InStep(ms, Run(events + Ticks(n)), Bytes(events))
    ensures |Run(events + Ticks(n)).delivered| >= if n < Deliverable(ms) then n else Deliverable(ms)
  {
    if n == 0 {
      assert events + Ticks(0) == events;
      Reassembly(ms, events);
    } else {
      EnoughTicks(ms, events, n - 1);
      assert events + Ticks(n) == (events + Ticks(n - 1)) + [Tick];
      RunLast(events + Ticks(n - 1), Tick);
      TickInStep(ms, Run(events + Ticks(n - 1)), Bytes(events));
      TickDelivers(ms, Run(events + Ticks(n - 1)));
    }
  }

  /** Behind the last message that can be delivered, the next tick meets one that cannot. */
  lemma AsksReconnect(ms: seq<seq<byte>>, events: seq<Event>)
    requires forall m :: m in ms ==> Encode(m).Ok?
    requires Bytes(events) == Stream(ms)
    ensures Run(events + Ticks(|ms|)).reconnect <==> Deliverable(ms) < |ms|
  {
    hide Run, Stream, Bytes, Encode, Ticked;
    EnoughTicks(ms, events, |ms|);
    if Deliverable(ms) < |ms| {
      var n := |ms| - 1;
      EnoughTicks(ms, events, n);
      assert events + Ticks(|ms|) == (events + Ticks(n)) + [Tick];
      RunLast(events + Ticks(n), Tick);
      TickDelivers(ms, Run(events + Ticks(n)));
    }
  }

  /** All messages arrive if and only if none is longer than `messageMaxLen - 4` bytes; otherwise,
      and only then, the client asks for a reconnect. */
  lemma DeliversAllIffFits(ms: seq<seq<byte>>, events: seq<Event>)
    requires forall m :: m in ms ==> Encode(m).Ok?
    requires Bytes(events) == Stream(ms)
    ensures Run(events + Ticks(|ms|)).delivered == ms <==> forall m :: m in ms ==> |m| <= 16_777_212
    ensures Run(events + Ticks(|ms|)).reconnect <==> exists m :: m in ms && |m| > 16_777_212
  {
    hide Run, Stream, Bytes, Encode;
    EnoughTicks(ms, events, |ms|);
    AsksReconnect(ms, events);
    var b := Run(events + Ticks(|ms|));
    var k := Deliverable(ms);
    assert b.delivered == ms[..k];
    if k < |ms| {
      assert ms[k] in ms;
    } else {
      assert ms[..k] == ms;
    }
  }

  // ---------------------------------------------------------------- two clients talking

  lemma StreamAppend(ms: seq<seq<byte>>, m: seq<byte>)
    requires forall x :: x in ms ==> Encode(x).Ok?
    requires Encode(m).Ok?
    ensures Stream(ms + [m]) == Stream(ms) + Encode(m).value
  {
    StreamSplit(ms + [m], |ms|);
    assert (ms + [m])[..|ms|] == ms && (ms + [m])[|ms|..] == [m];
    assert Stream([m]) == Encode(m).value + Stream([]);
  }

  /** What can happen while one side sends and the other receives. */
  datatype Action = Queue(m: seq<byte>) | Flush(n: nat) | Carry(n: nat) | Poll

  ghost function Footprint(sender: TcpClient, receiver: TcpClient): set<object>
    reads sender, sender.inBuffer, sender.outBuffer, receiver, receiver.inBuffer, receiver.outBuffer
  {
    {sender, sender.inBuffer, sender.outBuffer, sender.inBuffer.buf, sender.outBuffer.buf,
     receiver, receiver.inBuffer, receiver.outBuffer, receiver.inBuffer.buf, receiver.outBuffer.buf}
  }

  /** Two clients that share no storage. */
  ghost predicate Apart(sender: TcpClient, receiver: TcpClient)
    reads sender, sender.inBuffer, sender.outBuffer, receiver, receiver.inBuffer, receiver.outBuffer
  {
    && sender != receiver
    && sender.Valid() && receiver.Valid()
    && sender.inBuffer != receiver.inBuffer && sender.inBuffer != receiver.outBuffer
    && sender.outBuffer != receiver.inBuffer && sender.outBuffer != receiver.outBuffer
    && sender.inBuffer.buf != receiver.inBuffer.buf && sender.inBuffer.buf != receiver.outBuffer.buf
    && sender.outBuffer.buf != receiver.inBuffer.buf && sender.outBuffer.buf != receiver.outBuffer.buf
  }

  /** The sender has queued `queued`; the receiver has seen the first `carried` bytes it sent. */
  ghost predicate Conversation(sender: TcpClient, receiver: TcpClient, queued: seq<seq<byte>>, carried: nat, events: seq<Event>)
    reads Footprint(sender, receiver)
    reads sender, sender.inBuffer, sender.outBuffer, receiver, receiver.inBuffer, receiver.outBuffer
  {
    && Apart(sender, receiver)
    && (forall m :: m in queued ==> Encode(m).Ok?)
    && sender.Out() == Stream(queued)
    && carried <= |sender.sent|
    && receiver.In() == Run(events) && Bytes(events) == sender.sent[..carried]
  }

  lemma ConversationOutcome(sender: TcpClient, receiver: TcpClient, queued: seq<seq<byte>>, carried: nat, events: seq<Event>)
    requires Conversation(sender, receiver, queued, carried, events)
    ensures |receiver.delivered| <= Deliverable(queued) && receiver.delivered == queued[..|receiver.delivered|]
  {
    assert Bytes(events) <= Stream(queued);
    Reassembly(queued, events);
  }

  method Open() returns (sender: TcpClient, receiver: TcpClient)
    ensures Conversation(sender, receiver, [], 0, [])
    ensures fresh(Footprint(sender, receiver))
  {
    sender := new TcpClient();
    receiver := new TcpClient();
  }

  method QueueStep(sender: TcpClient, receiver: TcpClient, m: seq<byte>, queued: seq<seq<byte>>, ghost carried: nat, ghost events: seq<Event>)
    returns (queued': seq<seq<byte>>)
    requires Conversation(sender, receiver, queued, carried, events)
    modifies sender.outBuffer, sender.outBuffer.buf
    ensures Conversation(sender, receiver, queued', carried, events)
    ensures sender.outBuffer.buf == old(sender.outBuffer.buf) || fresh(sender.outBuffer.buf)
  {
    hide Run, Bytes, Stream, Ticked, RingBuffer.Contents;
    queued' := queued;
    var r, ok := sender.Send(m);
    if r.Ok? && ok {
      StreamAppend(queued, m);
      queued' := queued + [m];
    }
  }

  method FlushStep(sender: TcpClient, receiver: TcpClient, n: nat, ghost queued: seq<seq<byte>>, ghost carried: nat, ghost events: seq<Event>)
    requires Conversation(sender, receiver, queued, carried, events)
    modifies sender`sent, sender.outBuffer
    ensures Conversation(sender, receiver, queued, carried, events)
    ensures sender.outBuffer.buf == old(sender.outBuffer.buf) || fresh(sender.outBuffer.buf)
  {
    hide Run, Bytes, Stream, Ticked, RingBuffer.Contents;
    var waiting := sender.outBuffer.Length();
    sender.TickOut(Some(if n < waiting then n else waiting));
  }

  method CarryStep(sender: TcpClient, receiver: TcpClient, n: nat, ghost queued: seq<seq<byte>>, carried: nat, ghost events: seq<Event>)
    returns (carried': nat, ghost events': seq<Event>)
    requires Conversation(sender, receiver, queued, carried, events)
    modifies receiver.inBuffer, receiver.inBuffer.buf
    ensures Conversation(sender, receiver, queued, carried', events')
    ensures receiver.inBuffer.buf == old(receiver.inBuffer.buf) || fresh(receiver.inBuffer.buf)
  {
    hide Run, Bytes, Stream, Ticked, RingBuffer.Contents;
    carried', events' := carried, events;
    var upTo := if carried + n < |sender.sent| then carried + n else |sender.sent|;
    var chunk := sender.sent[carried..upTo];
    var ok := receiver.Receive(chunk);
    if ok {
      RunLast(events, Recv(chunk));
      events' := events + [Recv(chunk)];
      carried' := upTo;
    }
  }

  method PollStep(sender: TcpClient, receiver: TcpClient, ghost queued: seq<seq<byte>>, ghost carried: nat, ghost events: seq<Event>)
    returns (ghost events': seq<Event>)
    requires Conversation(sender, receiver, queued, carried, events)
    modifies receiver, receiver.inBuffer
    ensures Conversation(sender, receiver, queued, carried, events')
    ensures receiver.inBuffer.buf == old(receiver.inBuffer.buf) || fresh(receiver.inBuffer.buf)
  {
    hide Run, Bytes, Stream, Ticked, RingBuffer.Contents;
    RunLast(events, Tick);
    events' := events + [Tick];
    receiver.TickIn();
  }

  method Act(sender: TcpClient, receiver: TcpClient, a: Action, queued: seq<seq<byte>>, carried: nat, ghost events: seq<Event>)
    returns (queued': seq<seq<byte>>, carried': nat, ghost events': seq<Event>)
    requires Conversation(sender, receiver, queued, carried, events)
    modifies Footprint(sender, receiver)
    ensures Conversation(sender, receiver, queued', carried', events')
    ensures fresh(Footprint(sender, receiver) - old(Footprint(sender, receiver)))
  {
    hide Run, Bytes, Stream, Ticked, RingBuffer.Contents;
    queued', carried', events' := queued, carried, events;
    match a {
      case Queue(m) => queued' := QueueStep(sender, receiver, m, queued, carried, events);
      case Flush(n) => FlushStep(sender, receiver, n, queued, carried, events);
      case Carry(n) => carried', events' := CarryStep(sender, receiver, n, queued, carried, events);
      case Poll => events' := PollStep(sender, receiver, queued, carried, events);
    }
  }

  method Talk(sender: TcpClient, receiver: TcpClient, script: seq<Action>)
    returns (queued: seq<seq<byte>>, ghost carried: nat, ghost events: seq<Event>)
    requires Conversation(sender, receiver, [], 0, [])
    modifies Footprint(sender, receiver)
    ensures Conversation(sender, receiver, queued, carried, events)
  {
    hide Run, Bytes, Stream, Ticked, RingBuffer.Contents;
    queued, events := [], [];
    var c: nat := 0;
    for i := 0 to |script|
      invariant fresh(Footprint(sender, receiver) - old(Footprint(sender, receiver)))
      invariant Conversation(sender, receiver, queued, c, events)
    {
      queued, c, events := Act(sender, receiver, script[i], queued, c, events);
    }
    carried := c;
  }

  /** A sending and a receiving client joined by a byte stream, driven by any script: messages
      are queued, the sender's tick hands some bytes to the socket, the wire carries some of
      them to the receiver, and the receiver ticks. What comes out is always a prefix of what
      was accepted for sending. */
  method Converse(script: seq<Action>) returns (queued: seq<seq<byte>>, got: seq<seq<byte>>)
    ensures forall m :: m in queued ==> Encode(m).Ok?
    ensures |got| <= Deliverable(queued) && got == queued[..|got|]
  {
    hide Run, Bytes, Stream, RingBuffer.Contents;
    var sender, receiver := Open();
    ghost var carried, events;
    queued, carried, events := Talk(sender, receiver, script);
    ConversationOutcome(sender, receiver, queued, carried, events);
    got := receiver.delivered;
  }
}
