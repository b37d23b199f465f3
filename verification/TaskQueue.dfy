/** The lock-free task queue as a transition system: one transition is one atomic load, one
    compare-and-swap or one atomic add, taken by one of any number of threads.

    Nodes live in a growing memory that is never reused (the program is garbage collected),
    so a pointer is an index into `nodes`. */
module TaskQueue {
  import opened Common

  type Ptr = nat

  datatype Node<T> = Node(value: Option<T>, next: Option<Ptr>)

  /** The shared memory. */
  datatype Mem<T> = Mem(nodes: seq<Node<T>>, head: Ptr, tail: Ptr, count: int)

  /** Where a thread stands. The fields are the local variables that are still live there. */
  datatype Pc<T> =
    | Idle
    | EAlloc(task: T)
    | ELoadTail(task: T, node: Ptr)
    | ELoadNext(task: T, node: Ptr, tail: Ptr)
    | ELink(task: T, node: Ptr, tail: Ptr)
    | EHelp(task: T, node: Ptr, tail: Ptr, next: Ptr)
    | ESwing(task: T, node: Ptr, tail: Ptr)
    | EInc(task: T)
    | DLoadHead
    | DLoadTail(head: Ptr)
    | DLoadNext(head: Ptr, tail: Ptr)
    | DHelp(tail: Ptr, next: Ptr)
    | DReadValue(head: Ptr, nextRead: Option<Ptr>)
    | DTake(head: Ptr, next: Ptr, value: Option<T>)
    | DDec(value: Option<T>)
    | DNil
    | Crashed

  datatype State<T> = State(mem: Mem<T>, threads: seq<Pc<T>>)

  datatype Op<T> = Enqueue(task: T) | Dequeue

  /** What a call hands back; a dequeue may hand back nil. */
  datatype Res<T> = Done | Got(result: Option<T>)

  /** What a transition shows to an observer. `Commit` marks the one that takes effect. */
  datatype Event<T> = Tau | Invoke(op: Op<T>) | Commit(op: Op<T>, res: Res<T>) | Return(op: Op<T>, res: Res<T>)

  datatype Label<T> = Label(thread: nat, event: Event<T>)

  datatype Move<T> = Move(mem: Mem<T>, pc: Pc<T>, event: Event<T>)

  function Init<T>(threads: nat): (s: State<T>) {
    State(Mem([Node(None, None)], 0, 0, 0), seq(threads, _ => Idle))
  }

  /** The successor stored in a node. Pointers stay in range (see `Inv`), so the default is never used. */
  function LoadNext<T>(m: Mem<T>, p: Ptr): Option<Ptr> {
    if p < |m.nodes| then m.nodes[p].next else None
  }

  function LoadValue<T>(m: Mem<T>, p: Ptr): Option<T> {
    if p < |m.nodes| then m.nodes[p].value else None
  }

  /** The compare-and-swap on the shared tail pointer. */
  function SwingTail<T>(m: Mem<T>, from: Ptr, to: Ptr): Mem<T> {
    if m.tail == from then m.(tail := to) else m
  }

  function SetNext<T>(m: Mem<T>, p: Ptr, n: Ptr): Mem<T>
    requires p < |m.nodes|
  {
    m.(nodes := m.nodes[p := m.nodes[p].(next := Some(n))])
  }

  /** One transition from position `pc`; `op` is the call an idle thread starts. */
  function Act<T>(m: Mem<T>, pc: Pc<T>, op: Op<T>): Move<T> {
    match pc
    case Idle => Move(m, if op.Enqueue? then EAlloc(op.task) else DLoadHead, Invoke(op))
    case EAlloc(task) => Move(m.(nodes := m.nodes + [Node(Some(task), None)]), ELoadTail(task, |m.nodes|), Tau)
    case ELoadTail(task, node) => Move(m, ELoadNext(task, node, m.tail), Tau)
    case ELoadNext(task, node, tail) =>
      var next := LoadNext(m, tail);
      Move(m, if next.None? then ELink(task, node, tail) else EHelp(task, node, tail, next.value), Tau)
    case ELink(task, node, tail) =>
      if tail < |m.nodes| && m.nodes[tail].next.None? then
        Move(SetNext(m, tail, node), ESwing(task, node, tail), Commit(Enqueue(task), Done))
      else
        Move(m, ELoadTail(task, node), Tau)
    case EHelp(task, node, tail, next) => Move(SwingTail(m, tail, next), ELoadTail(task, node), Tau)
    case ESwing(task, node, tail) => Move(SwingTail(m, tail, node), EInc(task), Tau)
    case EInc(task) => Move(m.(count := m.count + 1), Idle, Return(Enqueue(task), Done))
    case DLoadHead => Move(m, DLoadTail(m.head), Tau)
    case DLoadTail(head) => Move(m, DLoadNext(head, m.tail), Tau)
    case DLoadNext(head, tail) =>
      var next := LoadNext(m, head);
      if head != tail then Move(m, DReadValue(head, next), Tau)
      else if next.None? then Move(m, DNil, Commit(Dequeue, Got(None)))
      else Move(m, DHelp(tail, next.value), Tau)
    case DHelp(tail, next) => Move(SwingTail(m, tail, next), DLoadHead, Tau)
    case DReadValue(head, next) =>
      Move(m, if next.None? then Crashed else DTake(head, next.value, LoadValue(m, next.value)), Tau)
    case DTake(head, next, value) =>
      if m.head == head then
        Move(m.(head := next), DDec(value), Commit(Dequeue, Got(value)))
      else
        Move(m, DLoadHead, Tau)
    case DDec(value) => Move(m.(count := m.count - 1), Idle, Return(Dequeue, Got(value)))
    case DNil => Move(m, Idle, Return(Dequeue, Got(None)))
    case Crashed => Move(m, Crashed, Tau)
  }

  /** Thread `t` takes one transition. */
  function Step<T>(s: State<T>, t: nat, op: Op<T>): State<T>
    requires t < |s.threads|
  {
    var mv := Act(s.mem, s.threads[t], op);
    State(mv.mem, s.threads[t := mv.pc])
  }

  // ---------------------------------------------------------------- the invariant

  /** The auxiliary view: every node ever linked, in link order, and where head and tail stand. */
  datatype View = View(chain: seq<Ptr>, hp: nat, tp: nat)

  const INIT_VIEW := View([0], 0, 0)

  /** How the view follows a transition: a link extends the chain, a swing or a take moves on. */
  function Follow<T>(m: Mem<T>, g: View, pc: Pc<T>): View {
    match pc
    case ELink(_, node, tail) =>
      if tail < |m.nodes| && m.nodes[tail].next.None? then g.(chain := g.chain + [node]) else g
    case EHelp(_, _, tail, _) => FollowSwing(m, g, tail)
    case ESwing(_, _, tail) => FollowSwing(m, g, tail)
    case DHelp(tail, _) => FollowSwing(m, g, tail)
    case DTake(head, _, _) => if m.head == head then g.(hp := g.hp + 1) else g
    case _ => g
  }

  function FollowSwing<T>(m: Mem<T>, g: View, tail: Ptr): View {
    if m.tail == tail then g.(tp := g.tp + 1) else g
  }

  /** What node number `i` of the list points to. */
  function Successor(chain: seq<Ptr>, i: nat): Option<Ptr> {
    if i + 1 < |chain| then Some(chain[i + 1]) else None
  }

  /** The linked list hanging from the first dummy node is exactly `chain`. */
  ghost predicate ChainOk<T>(nodes: seq<Node<T>>, chain: seq<Ptr>) {
    && 0 < |chain|
    && (forall i :: 0 <= i < |chain| ==> chain[i] < |nodes|)
    && (forall i, j :: 0 <= i < j < |chain| ==> chain[i] != chain[j])
    && (forall i {:trigger Successor(chain, i)} :: 0 <= i < |chain| ==> nodes[chain[i]].next == Successor(chain, i))
    && (forall i :: 1 <= i < |chain| ==> nodes[chain[i]].value.Some?)
  }

  /** Head is at or before tail, and tail is the last node or the one before it. */
  ghost predicate EndsOk<T>(m: Mem<T>, g: View) {
    && g.hp <= g.tp < |g.chain| <= g.tp + 2
    && m.head == g.chain[g.hp]
    && m.tail == g.chain[g.tp]
  }

  /** `p` is a linked node no later than position `limit`. */
  ghost predicate Seen(g: View, p: Ptr, limit: nat) {
    exists i :: 0 <= i <= limit && i < |g.chain| && g.chain[i] == p
  }

  /** `q` follows `p` in the list, `p` no later than `limit`. */
  ghost predicate Link(g: View, p: Ptr, q: Ptr, limit: int) {
    exists i :: 0 <= i <= limit && i < |g.chain| - 1 && g.chain[i] == p && g.chain[i + 1] == q
  }

  /** Head snapshot `h` was taken before tail snapshot `t`. */
  ghost predicate Ordered(g: View, h: Ptr, t: Ptr) {
    exists i, j :: 0 <= i <= g.hp && i <= j <= g.tp && j < |g.chain| && g.chain[i] == h && g.chain[j] == t
  }

  /** A node its enqueuer has not linked yet. */
  ghost predicate Private<T>(m: Mem<T>, g: View, n: Ptr, task: T) {
    && n < |m.nodes|
    && (forall i :: 0 <= i < |g.chain| ==> g.chain[i] != n)
    && m.nodes[n] == Node(Some(task), None)
  }

  /** The unlinked node a thread owns. */
  function Owned<T>(pc: Pc<T>): Option<Ptr> {
    match pc
    case ELoadTail(_, n) => Some(n)
    case ELoadNext(_, n, _) => Some(n)
    case ELink(_, n, _) => Some(n)
    case EHelp(_, n, _, _) => Some(n)
    case _ => None
  }

  /** What a thread's local variables are worth, however stale they are. */
  ghost predicate ThreadOk<T>(m: Mem<T>, g: View, pc: Pc<T>) {
    match pc
    case ELoadTail(v, n) => Private(m, g, n, v)
    case ELoadNext(v, n, tail) => Private(m, g, n, v) && Seen(g, tail, g.tp)
    case ELink(v, n, tail) => Private(m, g, n, v) && Seen(g, tail, g.tp)
    case EHelp(v, n, tail, next) => Private(m, g, n, v) && Link(g, tail, next, g.tp)
    case ESwing(v, n, tail) => Link(g, tail, n, g.tp)
    case DLoadTail(head) => Seen(g, head, g.hp)
    case DLoadNext(head, tail) => Ordered(g, head, tail)
    case DHelp(tail, next) => Link(g, tail, next, g.tp)
    case DReadValue(head, next) => next.Some? && Link(g, head, next.value, g.tp - 1)
    case DTake(head, next, value) =>
      Link(g, head, next, g.tp - 1) && value == LoadValue(m, next) && value.Some?
    case DDec(value) => value.Some?
    case Crashed => false
    case _ => true
  }

  ghost predicate ThreadsOk<T>(s: State<T>, g: View) {
    && (forall t :: 0 <= t < |s.threads| ==> ThreadOk(s.mem, g, s.threads[t]))
    && (forall t, u :: 0 <= t < u < |s.threads| && Owned(s.threads[t]).Some?
                       ==> Owned(s.threads[t]) != Owned(s.threads[u]))
  }

  ghost predicate MemOk<T>(m: Mem<T>, g: View) {
    ChainOk(m.nodes, g.chain) && EndsOk(m, g)
  }

  ghost predicate Inv<T>(s: State<T>, g: View) {
    MemOk(s.mem, g) && ThreadsOk(s, g)
  }

  /** The values stored in the list after position `from`. */
  ghost function ValuesAfter<T>(nodes: seq<Node<T>>, chain: seq<Ptr>, from: nat): (q: seq<T>)
    requires ChainOk(nodes, chain) && from < |chain|
  {
    seq(|chain| - 1 - from, i requires 0 <= i < |chain| - 1 - from => nodes[chain[from + 1 + i]].value.value)
  }

  /** The tasks in the queue: the values linked after the head. */
  ghost function Queue<T>(m: Mem<T>, g: View): seq<T>
    requires MemOk(m, g)
  {
    ValuesAfter(m.nodes, g.chain, g.hp)
  }

  // ---------------------------------------------------------------- one transition

  /** What a transition of one thread must leave alone for the sake of the others. */
  ghost predicate Grows<T>(m: Mem<T>, g: View, m': Mem<T>, g': View, own: Option<Ptr>) {
    && 0 < |g.chain|
    && (g'.chain == g.chain || (own.Some? && g'.chain == g.chain + [own.value]))
    && g.hp <= g'.hp && g.tp <= g'.tp
    && |m.nodes| <= |m'.nodes|
    && (forall i :: 0 <= i < |m.nodes| ==> m'.nodes[i].value == m.nodes[i].value)
    && (forall i :: 0 <= i < |m.nodes| && i != g.chain[|g.chain| - 1] ==> m'.nodes[i] == m.nodes[i])
  }

  lemma ThreadStays<T>(m: Mem<T>, g: View, m': Mem<T>, g': View, own: Option<Ptr>, pc: Pc<T>)
    requires ThreadOk(m, g, pc) && ChainOk(m.nodes, g.chain)
    requires Grows(m, g, m', g', own)
    requires Owned(pc).Some? ==> Owned(pc) != own
    ensures ThreadOk(m', g', pc)
  {
    assert forall i :: 0 <= i < |g.chain| ==> g'.chain[i] == g.chain[i];
  }

  /** A transition's effect on the memory and on its own thread; what `queue` becomes is its event. */
  ghost predicate GoodMove<T>(m: Mem<T>, g: View, pc: Pc<T>, mv: Move<T>, g': View) {
    && MemOk(m, g) && MemOk(mv.mem, g')
    && Grows(m, g, mv.mem, g', Owned(pc))
    && ThreadOk(mv.mem, g', mv.pc)
    && (Owned(mv.pc).Some? ==> Owned(mv.pc) == Owned(pc) || Owned(mv.pc).value == |m.nodes|)
    && ApplyEvent(Queue(m, g), mv.event) == Some(Queue(mv.mem, g'))
  }

  /** The queue an event turns `q` into; `None` where a first-in first-out queue forbids it. */
  function ApplyEvent<T(==)>(q: seq<T>, e: Event<T>): Option<seq<T>> {
    match e
    case Commit(Enqueue(v), Done) => Some(q + [v])
    case Commit(Dequeue, Got(r)) =>
      if q == [] then (if r.None? then Some(q) else None)
      else if r == Some(q[0]) then Some(q[1..])
      else None
    case Commit(_, _) => None
    case _ => Some(q)
  }

  /** A link that finds no successor is made from the last node, which is then also the tail. */
  lemma LinkFromLast<T>(m: Mem<T>, g: View, tail: Ptr)
    requires MemOk(m, g) && Seen(g, tail, g.tp)
    requires tail < |m.nodes| && m.nodes[tail].next.None?
    ensures tail == g.chain[|g.chain| - 1] && g.tp == |g.chain| - 1
  {
    var i :| 0 <= i <= g.tp && i < |g.chain| && g.chain[i] == tail;
    assert m.nodes[g.chain[i]].next == Successor(g.chain, i);
  }

  lemma LinkGrowsChain<T>(m: Mem<T>, g: View, task: T, node: Ptr, tail: Ptr)
    requires ChainOk(m.nodes, g.chain) && Private(m, g, node, task)
    requires tail == g.chain[|g.chain| - 1]
    ensures ChainOk(SetNext(m, tail, node).nodes, g.chain + [node])
  {
    var chain', nodes' := g.chain + [node], SetNext(m, tail, node).nodes;
    forall i | 0 <= i < |chain'|
      ensures nodes'[chain'[i]].next == Successor(chain', i)
    {
      if i < |g.chain| - 1 {
        assert m.nodes[g.chain[i]].next == Successor(g.chain, i);
      }
    }
  }

  /** A successful link compare-and-swap appends the task at the very end of the list. */
  lemma LinkMove<T>(m: Mem<T>, g: View, task: T, node: Ptr, tail: Ptr, op: Op<T>)
    requires MemOk(m, g) && ThreadOk(m, g, ELink(task, node, tail))
    requires tail < |m.nodes| && m.nodes[tail].next.None?
    ensures GoodMove(m, g, ELink(task, node, tail), Act(m, ELink(task, node, tail), op), g.(chain := g.chain + [node]))
  {
    LinkFromLast(m, g, tail);
    LinkGrowsChain(m, g, task, node, tail);
    var m', g' := SetNext(m, tail, node), g.(chain := g.chain + [node]);
    assert Link(g', tail, node, g'.tp) by {
      assert g'.chain[g.tp] == tail && g'.chain[g.tp + 1] == node;
    }
    assert Queue(m', g') == Queue(m, g) + [task];
  }

  /** The tail swing succeeds only from the current tail, to the next linked node. */
  lemma SwingKeepsEnds<T>(m: Mem<T>, g: View, from: Ptr, to: Ptr)
    requires MemOk(m, g) && Link(g, from, to, g.tp)
    ensures EndsOk(SwingTail(m, from, to), FollowSwing(m, g, from))
  {
    var i :| 0 <= i <= g.tp && i < |g.chain| - 1 && g.chain[i] == from && g.chain[i + 1] == to;
    if m.tail == from {
      assert i == g.tp;
    }
  }

  lemma SwingMove<T>(m: Mem<T>, g: View, from: Ptr, to: Ptr, pc: Pc<T>, pc': Pc<T>)
    requires MemOk(m, g) && Link(g, from, to, g.tp)
    requires ThreadOk(m, g, pc')
    requires Owned(pc').Some? ==> Owned(pc') == Owned(pc)
    ensures GoodMove(m, g, pc, Move(SwingTail(m, from, to), pc', Tau), FollowSwing(m, g, from))
  {
    var m', g' := SwingTail(m, from, to), FollowSwing(m, g, from);
    SwingKeepsEnds(m, g, from, to);
    assert Grows(m, g, m', g', Owned(pc));
    assert ThreadOk(m', g', pc') by {
      assert Grows(m, g, m', g', None);
      ThreadStays(m, g, m', g', None, pc');
    }
    assert Queue(m', g') == Queue(m, g);
  }

  /** A transition that changes no pointer and commits nothing. */
  lemma QuietMove<T>(m: Mem<T>, g: View, pc: Pc<T>, mv: Move<T>)
    requires MemOk(m, g) && mv.mem.(count := m.count) == m
    requires ThreadOk(m, g, mv.pc)
    requires Owned(mv.pc).Some? ==> Owned(mv.pc) == Owned(pc)
    requires mv.event.Commit? ==> mv.event == Commit(Dequeue, Got(None)) && Queue(m, g) == []
    ensures GoodMove(m, g, pc, mv, g)
  {
    ThreadStays(m, g, mv.mem, g, None, mv.pc);
    assert Queue(mv.mem, g) == Queue(m, g);
  }

  lemma AllocMove<T>(m: Mem<T>, g: View, task: T, op: Op<T>)
    requires MemOk(m, g)
    ensures GoodMove(m, g, EAlloc(task), Act(m, EAlloc(task), op), g)
  {
    var m' := Act(m, EAlloc(task), op).mem;
    assert MemOk(m', g) by {
      assert forall i :: 0 <= i < |g.chain| ==> m'.nodes[g.chain[i]] == m.nodes[g.chain[i]];
    }
    assert Queue(m', g) == Queue(m, g);
  }

  lemma TakeKeepsEnds<T>(m: Mem<T>, g: View, next: Ptr)
    requires MemOk(m, g) && Link(g, m.head, next, g.tp - 1)
    ensures g.hp + 1 <= g.tp && next == g.chain[g.hp + 1]
  {
    var i :| 0 <= i <= g.tp - 1 && i < |g.chain| - 1 && g.chain[i] == m.head && g.chain[i + 1] == next;
    assert i == g.hp;
  }

  /** A successful head compare-and-swap removes exactly the oldest task. */
  lemma TakeMove<T>(m: Mem<T>, g: View, next: Ptr, value: Option<T>, op: Op<T>)
    requires MemOk(m, g) && ThreadOk(m, g, DTake(m.head, next, value))
    ensures GoodMove(m, g, DTake(m.head, next, value), Act(m, DTake(m.head, next, value), op), g.(hp := g.hp + 1))
  {
    TakeKeepsEnds(m, g, next);
    assert EndsOk(m.(head := next), g.(hp := g.hp + 1));
    var q := ValuesAfter(m.nodes, g.chain, g.hp);
    assert ValuesAfter(m.nodes, g.chain, g.hp + 1) == q[1..];
    assert value == Some(q[0]);
  }

  lemma LoadedInOrder<T>(m: Mem<T>, g: View, head: Ptr)
    requires MemOk(m, g) && Seen(g, head, g.hp)
    ensures Ordered(g, head, m.tail)
  {
    var i :| 0 <= i <= g.hp && i < |g.chain| && g.chain[i] == head;
    assert i <= g.tp && g.chain[g.tp] == m.tail;
  }

  lemma ValueRead<T>(m: Mem<T>, g: View, head: Ptr, next: Ptr)
    requires MemOk(m, g) && Link(g, head, next, g.tp - 1)
    ensures LoadValue(m, next).Some?
    ensures ThreadOk(m, g, DTake(head, next, LoadValue(m, next)))
  {
  }

  /** Why the missing re-check of head is harmless: a head snapshot never overtakes the tail
      snapshot taken after it, so different snapshots mean a successor exists, and equal
      snapshots without a successor mean the queue is empty now. */
  lemma NextLoaded<T>(m: Mem<T>, g: View, head: Ptr, tail: Ptr)
    requires MemOk(m, g) && Ordered(g, head, tail)
    ensures head < |m.nodes|
    ensures head != tail ==> m.nodes[head].next.Some? && Link(g, head, m.nodes[head].next.value, g.tp - 1)
    ensures head == tail && m.nodes[head].next.Some? ==> Link(g, tail, m.nodes[head].next.value, g.tp)
    ensures head == tail && m.nodes[head].next.None? ==> Queue(m, g) == []
  {
    var i, j :| 0 <= i <= g.hp && i <= j <= g.tp && j < |g.chain| && g.chain[i] == head && g.chain[j] == tail;
    assert m.nodes[g.chain[i]].next == Successor(g.chain, i);
  }

  lemma EnqueueMove<T>(m: Mem<T>, g: View, pc: Pc<T>, op: Op<T>)
    requires MemOk(m, g) && ThreadOk(m, g, pc) && InEnqueue(pc)
    ensures GoodMove(m, g, pc, Act(m, pc, op), Follow(m, g, pc))
  {
    var mv := Act(m, pc, op);
    match pc
    case EAlloc(task) => AllocMove(m, g, task, op);
    case ELoadNext(task, node, tail) =>
      var i :| 0 <= i <= g.tp && i < |g.chain| && g.chain[i] == tail;
      assert m.nodes[g.chain[i]].next == Successor(g.chain, i);
      QuietMove(m, g, pc, mv);
    case ELink(task, node, tail) =>
      if tail < |m.nodes| && m.nodes[tail].next.None? {
        LinkMove(m, g, task, node, tail, op);
      } else {
        QuietMove(m, g, pc, mv);
      }
    case EHelp(task, node, tail, next) => SwingMove(m, g, tail, next, pc, mv.pc);
    case ESwing(task, node, tail) => SwingMove(m, g, tail, node, pc, mv.pc);
    case _ => QuietMove(m, g, pc, mv);
  }

  lemma DequeueLoad<T>(m: Mem<T>, g: View, pc: Pc<T>, op: Op<T>)
    requires MemOk(m, g) && ThreadOk(m, g, pc)
    requires pc.DLoadHead? || pc.DLoadTail? || pc.DLoadNext? || pc.DReadValue?
    ensures GoodMove(m, g, pc, Act(m, pc, op), g)
  {
    match pc {
      case DLoadHead => assert Seen(g, m.head, g.hp);
      case DLoadTail(head) => LoadedInOrder(m, g, head);
      case DLoadNext(head, tail) => NextLoaded(m, g, head, tail);
      case DReadValue(head, next) => ValueRead(m, g, head, next.value);
    }
    QuietMove(m, g, pc, Act(m, pc, op));
  }

  lemma DequeueMove<T>(m: Mem<T>, g: View, pc: Pc<T>, op: Op<T>)
    requires MemOk(m, g) && ThreadOk(m, g, pc) && !InEnqueue(pc)
    ensures GoodMove(m, g, pc, Act(m, pc, op), Follow(m, g, pc))
  {
    if pc.DLoadHead? || pc.DLoadTail? || pc.DLoadNext? || pc.DReadValue? {
      DequeueLoad(m, g, pc, op);
    } else if pc.DHelp? {
      SwingMove(m, g, pc.tail, pc.next, pc, DLoadHead);
    } else if pc.DTake? && m.head == pc.head {
      TakeMove(m, g, pc.next, pc.value, op);
    } else {
      QuietMove(m, g, pc, Act(m, pc, op));
    }
  }

  predicate InEnqueue<T>(pc: Pc<T>) {
    pc.Idle? || pc.EAlloc? || pc.ELoadTail? || pc.ELoadNext? || pc.ELink? || pc.EHelp? || pc.ESwing? || pc.EInc?
  }

  /** Every transition keeps the invariant, never crashes, and acts on the queue as its event says. */
  lemma StepRefines<T>(s: State<T>, g: View, t: nat, op: Op<T>)
    requires Inv(s, g) && t < |s.threads|
    ensures
      var g' := Follow(s.mem, g, s.threads[t]);
      Inv(Step(s, t, op), g') && GoodMove(s.mem, g, s.threads[t], Act(s.mem, s.threads[t], op), g')
  {
    var m, pc := s.mem, s.threads[t];
    assert ThreadOk(m, g, pc);
    if InEnqueue(pc) {
      EnqueueMove(m, g, pc, op);
    } else {
      DequeueMove(m, g, pc, op);
    }
    MoveKeepsOthers(s, g, t, Act(m, pc, op), Follow(m, g, pc));
  }

  lemma MoveKeepsOthers<T>(s: State<T>, g: View, t: nat, mv: Move<T>, g': View)
    requires Inv(s, g) && t < |s.threads|
    requires GoodMove(s.mem, g, s.threads[t], mv, g')
    ensures Inv(State(mv.mem, s.threads[t := mv.pc]), g')
  {
    var own := Owned(s.threads[t]);
    forall u | 0 <= u < |s.threads| && u != t
      ensures ThreadOk(mv.mem, g', s.threads[u])
      ensures Owned(s.threads[u]).Some? ==> Owned(s.threads[u]) != own && Owned(s.threads[u]).value < |s.mem.nodes|
    {
      assert ThreadOk(s.mem, g, s.threads[u]);
      assert Owned(s.threads[u]).Some? ==> Owned(s.threads[u]) != own;
      ThreadStays(s.mem, g, mv.mem, g', own, s.threads[u]);
    }
  }

  // ---------------------------------------------------------------- whole runs

  /** A schedule names the thread of each transition and the call it would start. */
  datatype Choice<T> = Choice(thread: nat, op: Op<T>)

  ghost predicate Schedule<T>(threads: nat, sched: seq<Choice<T>>) {
    forall i :: 0 <= i < |sched| ==> sched[i].thread < threads
  }

  ghost function Run<T>(threads: nat, sched: seq<Choice<T>>): (s: State<T>)
    requires Schedule(threads, sched)
    ensures |s.threads| == threads
  {
    if sched == [] then Init(threads)
    else
      var last := sched[|sched| - 1];
      Step(Run(threads, sched[..|sched| - 1]), last.thread, last.op)
  }

  /** The labels of a run, one per transition. */
  ghost function History<T>(threads: nat, sched: seq<Choice<T>>): (h: seq<Label<T>>)
    requires Schedule(threads, sched)
    ensures |h| == |sched|
  {
    if sched == [] then []
    else
      var prefix := sched[..|sched| - 1];
      var last := sched[|sched| - 1];
      var s := Run(threads, prefix);
      History(threads, prefix) + [Label(last.thread, Act(s.mem, s.threads[last.thread], last.op).event)]
  }

  ghost function RunView<T>(threads: nat, sched: seq<Choice<T>>): View
    requires Schedule(threads, sched)
  {
    if sched == [] then INIT_VIEW
    else
      var prefix := sched[..|sched| - 1];
      var s := Run(threads, prefix);
      Follow(s.mem, RunView(threads, prefix), s.threads[sched[|sched| - 1].thread])
  }

  /** The queue after replaying the commits of a history against a sequential queue. */
  function Replay<T(==)>(h: seq<Label<T>>): Option<seq<T>> {
    if h == [] then Some([])
    else match Replay(h[..|h| - 1])
      case None => None
      case Some(q) => ApplyEvent(q, h[|h| - 1].event)
  }

  /** Safety of every reachable state. */
  lemma {:induction false} ReachableInv<T>(threads: nat, sched: seq<Choice<T>>)
    requires Schedule(threads, sched)
    ensures Inv(Run(threads, sched), RunView(threads, sched))
    ensures Replay(History(threads, sched)) == Some(Queue(Run(threads, sched).mem, RunView(threads, sched)))
  {
    if sched == [] {
      assert Queue(Init<T>(threads).mem, INIT_VIEW) == [];
    } else {
      var prefix := sched[..|sched| - 1];
      var last := sched[|sched| - 1];
      ReachableInv(threads, prefix);
      StepRefines(Run(threads, prefix), RunView(threads, prefix), last.thread, last.op);
      assert History(threads, sched)[..|prefix|] == History(threads, prefix);
    }
  }

  /** A thread never dereferences a nil successor, whatever stale head it read; head stays at
      or before tail, and tail lags by at most one node. */
  lemma NoCrash<T>(threads: nat, sched: seq<Choice<T>>, t: nat)
    requires Schedule(threads, sched) && t < threads
    ensures
      var s := Run(threads, sched);
      var g := RunView(threads, sched);
      && s.threads[t] != Crashed
      && (s.threads[t].DReadValue? ==> s.threads[t].nextRead.Some?)
      && g.hp <= g.tp < |g.chain| <= g.tp + 2
      && s.mem.head == g.chain[g.hp] && s.mem.tail == g.chain[g.tp]
  {
    ReachableInv(threads, sched);
    var s := Run(threads, sched);
    assert ThreadOk(s.mem, RunView(threads, sched), s.threads[t]);
  }

  // ---------------------------------------------------------------- linearizability

  /** The life of one call: invoked, then committed with a result, then returned with that result. */
  datatype Phase<T> = Ready | Pending(op: Op<T>) | Committed(op: Op<T>, res: Res<T>) | Broken

  function PcPhase<T>(pc: Pc<T>): Phase<T> {
    match pc
    case Idle => Ready
    case EAlloc(v) => Pending(Enqueue(v))
    case ELoadTail(v, _) => Pending(Enqueue(v))
    case ELoadNext(v, _, _) => Pending(Enqueue(v))
    case ELink(v, _, _) => Pending(Enqueue(v))
    case EHelp(v, _, _, _) => Pending(Enqueue(v))
    case ESwing(v, _, _) => Committed(Enqueue(v), Done)
    case EInc(v) => Committed(Enqueue(v), Done)
    case DDec(v) => Committed(Dequeue, Got(v))
    case DNil => Committed(Dequeue, Got(None))
    case Crashed => Broken
    case _ => Pending(Dequeue)
  }

  /** What an observer of one thread makes of one of its events. */
  function Observe<T(==)>(ph: Phase<T>, e: Event<T>): Phase<T> {
    match e
    case Tau => ph
    case Invoke(op) => if ph.Ready? then Pending(op) else Broken
    case Commit(op, res) => if ph == Pending(op) then Committed(op, res) else Broken
    case Return(op, res) => if ph == Committed(op, res) then Ready else Broken
  }

  function ObserveAll<T(==)>(t: nat, h: seq<Label<T>>): Phase<T> {
    if h == [] then Ready
    else
      var ph := ObserveAll(t, h[..|h| - 1]);
      var l := h[|h| - 1];
      if l.thread == t then Observe(ph, l.event) else ph
  }

  lemma MoveObserved<T>(m: Mem<T>, pc: Pc<T>, op: Op<T>)
    requires Act(m, pc, op).pc != Crashed
    ensures Observe(PcPhase(pc), Act(m, pc, op).event) == PcPhase(Act(m, pc, op).pc)
  {
  }

  lemma {:induction false} CallsWellFormed<T>(threads: nat, sched: seq<Choice<T>>, t: nat)
    requires Schedule(threads, sched) && t < threads
    ensures ObserveAll(t, History(threads, sched)) == PcPhase(Run(threads, sched).threads[t])
  {
    if sched != [] {
      var prefix := sched[..|sched| - 1];
      var last := sched[|sched| - 1];
      CallsWellFormed(threads, prefix, t);
      NoCrash(threads, sched, last.thread);
      var s := Run(threads, prefix);
      MoveObserved(s.mem, s.threads[last.thread], last.op);
      assert History(threads, sched)[..|prefix|] == History(threads, prefix);
    }
  }

  /** Linearizability of every run of any number of threads: each call commits exactly once,
      between its invocation and its return and with the result it returns, and the commits,
      in the order they happen, are a legal history of one sequential FIFO queue. */
  lemma Linearizable<T>(threads: nat, sched: seq<Choice<T>>)
    requires Schedule(threads, sched)
    ensures Replay(History(threads, sched)).Some?
    ensures forall t :: 0 <= t < threads ==> ObserveAll(t, History(threads, sched)) != Broken
  {
    ReachableInv(threads, sched);
    forall t | 0 <= t < threads
      ensures ObserveAll(t, History(threads, sched)) != Broken
    {
      CallsWellFormed(threads, sched, t);
      NoCrash(threads, sched, t);
    }
  }

  /** The tasks whose enqueue committed, and the tasks handed out, both in commit order. */
  function Enqueued<T>(h: seq<Label<T>>): seq<T> {
    if h == [] then []
    else
      var e := h[|h| - 1].event;
      Enqueued(h[..|h| - 1]) + if e.Commit? && e.op.Enqueue? then [e.op.task] else []
  }

  function Dequeued<T>(h: seq<Label<T>>): seq<T> {
    if h == [] then []
    else
      var e := h[|h| - 1].event;
      Dequeued(h[..|h| - 1]) + if e.Commit? && e.res.Got? && e.res.result.Some? then [e.res.result.value] else []
  }

  /** Tasks come out in the order they went in, each once, and nothing is lost or invented. */
  lemma {:induction false} FifoHistory<T>(h: seq<Label<T>>)
    requires Replay(h).Some?
    ensures Enqueued(h) == Dequeued(h) + Replay(h).value
  {
    if h != [] {
      FifoHistory(h[..|h| - 1]);
    }
  }

  // ---------------------------------------------------------------- the counter

  /** What a thread still owes the counter. */
  function Owes<T>(pc: Pc<T>): int {
    match pc
    case ESwing(_, _, _) => 1
    case EInc(_) => 1
    case DDec(_) => -1
    case _ => 0
  }

  /** Increments still to come minus decrements still to come. */
  function Outstanding<T>(threads: seq<Pc<T>>): int {
    if threads == [] then 0 else Outstanding(threads[..|threads| - 1]) + Owes(threads[|threads| - 1])
  }

  lemma {:induction false} OutstandingUpdate<T>(threads: seq<Pc<T>>, t: nat, pc: Pc<T>)
    requires t < |threads|
    ensures Outstanding(threads[t := pc]) == Outstanding(threads) - Owes(threads[t]) + Owes(pc)
  {
    var n := |threads| - 1;
    if t < n {
      OutstandingUpdate(threads[..n], t, pc);
      assert threads[t := pc][..n] == threads[..n][t := pc];
    } else {
      assert threads[t := pc][..n] == threads[..n];
    }
  }

  lemma {:induction false} OutstandingInit<T>(threads: nat)
    ensures Outstanding<T>(seq(threads, _ => Idle)) == 0
  {
    if threads > 0 {
      var all: seq<Pc<T>> := seq(threads, _ => Idle);
      OutstandingInit<T>(threads - 1);
      assert all[..threads - 1] == seq(threads - 1, _ => Idle);
    }
  }

  lemma MoveCounts<T>(m: Mem<T>, pc: Pc<T>, op: Op<T>, q: seq<T>)
    requires pc.DTake? ==> pc.value.Some?
    requires ApplyEvent(q, Act(m, pc, op).event).Some?
    ensures
      var mv := Act(m, pc, op);
      mv.mem.count - m.count + Owes(mv.pc) - Owes(pc) == |ApplyEvent(q, mv.event).value| - |q|
  {
  }

  /** `Len` is the queue length, short of the increments and over the decrements in flight. */
  lemma {:induction false} CountTracksLength<T>(threads: nat, sched: seq<Choice<T>>)
    requires Schedule(threads, sched)
    ensures Inv(Run(threads, sched), RunView(threads, sched))
    ensures
      var s := Run(threads, sched);
      s.mem.count + Outstanding(s.threads) == |Queue(s.mem, RunView(threads, sched))|
  {
    ReachableInv(threads, sched);
    if sched == [] {
      OutstandingInit<T>(threads);
    } else {
      var prefix := sched[..|sched| - 1];
      var last := sched[|sched| - 1];
      CountTracksLength(threads, prefix);
      var s := Run(threads, prefix);
      var g := RunView(threads, prefix);
      var pc := s.threads[last.thread];
      StepRefines(s, g, last.thread, last.op);
      assert ThreadOk(s.mem, g, pc);
      MoveCounts(s.mem, pc, last.op, Queue(s.mem, g));
      OutstandingUpdate(s.threads, last.thread, Act(s.mem, pc, last.op).pc);
    }
  }

  // ---------------------------------------------------------------- progress

  predicate Lagging(g: View) {
    g.tp + 1 < |g.chain|
  }

  predicate Last(g: View, p: Ptr) {
    g.chain != [] && p == g.chain[|g.chain| - 1]
  }

  /** The transitions of a retry after helping: a swing from the current tail ends its lag. */
  function Helping<T>(m: Mem<T>, tail: Ptr, slow: nat, fast: nat): nat {
    1 + if m.tail == tail then fast else slow
  }

  /** How many transitions a thread can take at most before it commits, while no other thread
      commits. */
  function Rank<T>(m: Mem<T>, g: View, pc: Pc<T>): nat {
    var e, d := if Lagging(g) then 5 else 2, if Lagging(g) then 8 else 4;
    match pc
    case Idle => d + 1
    case EAlloc(_) => 1 + e
    case ELoadTail(_, _) => e
    case ELoadNext(_, _, tail) => if Last(g, tail) then 1 else 1 + Helping(m, tail, e, 2)
    case ELink(_, _, tail) => if Last(g, tail) then 0 else 1 + e
    case EHelp(_, _, tail, _) => Helping(m, tail, e, 2)
    case ESwing(_, _, _) => d + 3
    case EInc(_) => d + 2
    case DLoadHead => d
    case DLoadTail(head) => if head != m.head then 4 + d else if g.hp < g.tp then 3 else if Lagging(g) then 7 else 1
    case DLoadNext(head, tail) =>
      if head != tail then 2 + Taking(m, head, d) else if Last(g, head) then 0 else 1 + Helping(m, tail, d, 4)
    case DHelp(tail, _) => Helping(m, tail, d, 4)
    case DReadValue(head, _) => 1 + Taking(m, head, d)
    case DTake(head, _, _) => Taking(m, head, d)
    case DDec(_) => d + 2
    case DNil => d + 2
    case Crashed => 0
  }

  function Taking<T>(m: Mem<T>, head: Ptr, d: nat): nat {
    if m.head == head then 0 else 1 + d
  }

  const RANK_MAX := 12

  /** A transition that commits nothing: the list and its head stay, and the tail catches up if
      it moves at all. */
  ghost predicate NoCommit<T>(m: Mem<T>, g: View, m': Mem<T>, g': View) {
    && MemOk(m, g) && MemOk(m', g') && g'.chain == g.chain && g'.hp == g.hp && m'.head == m.head
    && ((g'.tp == g.tp && m'.tail == m.tail) || (Lagging(g) && g'.tp == g.tp + 1))
  }

  /** The other threads come no later to their commits. */
  lemma RankStays<T>(m: Mem<T>, g: View, m': Mem<T>, g': View, pc: Pc<T>)
    requires NoCommit(m, g, m', g')
    ensures Rank(m', g', pc) <= Rank(m, g, pc) <= RANK_MAX
  {
    hide ChainOk;
  }

  lemma MoveNoCommit<T>(m: Mem<T>, g: View, pc: Pc<T>, op: Op<T>)
    requires MemOk(m, g) && ThreadOk(m, g, pc) && !Act(m, pc, op).event.Commit?
    requires MemOk(Act(m, pc, op).mem, Follow(m, g, pc))
    ensures NoCommit(m, g, Act(m, pc, op).mem, Follow(m, g, pc))
  {
  }

  /** The thread itself comes closer to its commit. */
  lemma RankFalls<T>(m: Mem<T>, g: View, pc: Pc<T>, op: Op<T>)
    requires MemOk(m, g) && ThreadOk(m, g, pc) && !Act(m, pc, op).event.Commit?
    ensures Rank(Act(m, pc, op).mem, Follow(m, g, pc), Act(m, pc, op).pc) < Rank(m, g, pc)
  {
    if InEnqueue(pc) {
      EnqueueRankFalls(m, g, pc, op);
    } else {
      DequeueRankFalls(m, g, pc, op);
    }
  }

  lemma EnqueueRankFalls<T>(m: Mem<T>, g: View, pc: Pc<T>, op: Op<T>)
    requires MemOk(m, g) && ThreadOk(m, g, pc) && InEnqueue(pc) && !Act(m, pc, op).event.Commit?
    ensures Rank(Act(m, pc, op).mem, Follow(m, g, pc), Act(m, pc, op).pc) < Rank(m, g, pc)
  {
    match pc {
      case ELoadTail(_, _) => TailSeen(m, g);
      case ELoadNext(_, _, tail) => SeenIs(m, g, tail, g.tp);
      case ELink(_, _, tail) => SeenIs(m, g, tail, g.tp);
      case EHelp(_, _, tail, next) => SwingKeepsEnds(m, g, tail, next);
      case _ =>
    }
  }

  lemma DequeueRankFalls<T>(m: Mem<T>, g: View, pc: Pc<T>, op: Op<T>)
    requires MemOk(m, g) && ThreadOk(m, g, pc) && !InEnqueue(pc) && !Act(m, pc, op).event.Commit?
    ensures Rank(Act(m, pc, op).mem, Follow(m, g, pc), Act(m, pc, op).pc) < Rank(m, g, pc)
  {
    match pc {
      case DLoadTail(head) => TailLoadFalls(m, g, head);
      case DLoadNext(head, tail) => NextLoadFalls(m, g, head, tail, op);
      case DHelp(tail, next) =>
        hide ChainOk;
        SwingKeepsEnds(m, g, tail, next);
      case _ =>
        hide ChainOk;
    }
  }

  lemma TailLoadFalls<T>(m: Mem<T>, g: View, head: Ptr)
    requires MemOk(m, g)
    ensures Rank(m, g, DLoadNext(head, m.tail)) < Rank(m, g, DLoadTail(head))
  {
    assert m.head == m.tail <==> g.hp == g.tp;
    hide ChainOk;
  }

  lemma NextLoadFalls<T>(m: Mem<T>, g: View, head: Ptr, tail: Ptr, op: Op<T>)
    requires MemOk(m, g) && Ordered(g, head, tail) && !Act(m, DLoadNext(head, tail), op).event.Commit?
    ensures Rank(m, g, Act(m, DLoadNext(head, tail), op).pc) < Rank(m, g, DLoadNext(head, tail))
  {
    hide ChainOk;
    NextLoaded(m, g, head, tail);
    OrderedSeen(g, head, tail);
    SeenIs(m, g, head, g.hp);
  }

  lemma TailSeen<T>(m: Mem<T>, g: View)
    requires MemOk(m, g)
    ensures Last(g, m.tail) <==> !Lagging(g)
  {
  }

  lemma SeenIs<T>(m: Mem<T>, g: View, p: Ptr, limit: nat)
    requires MemOk(m, g) && Seen(g, p, limit)
    ensures p < |m.nodes| && (m.nodes[p].next.None? <==> Last(g, p))
  {
    var i :| 0 <= i <= limit && i < |g.chain| && g.chain[i] == p;
    assert m.nodes[g.chain[i]].next == Successor(g.chain, i);
  }

  lemma OrderedSeen(g: View, head: Ptr, tail: Ptr)
    requires Ordered(g, head, tail)
    ensures Seen(g, head, g.hp)
  {
  }

  function TotalRank<T>(m: Mem<T>, g: View, threads: seq<Pc<T>>): nat {
    if threads == [] then 0 else TotalRank(m, g, threads[..|threads| - 1]) + Rank(m, g, threads[|threads| - 1])
  }

  lemma {:induction false} TotalStays<T>(m: Mem<T>, g: View, m': Mem<T>, g': View, threads: seq<Pc<T>>)
    requires NoCommit(m, g, m', g')
    ensures TotalRank(m', g', threads) <= TotalRank(m, g, threads) <= RANK_MAX * |threads|
  {
    hide Rank, NoCommit;
    if threads != [] {
      TotalStays(m, g, m', g', threads[..|threads| - 1]);
      RankStays(m, g, m', g', threads[|threads| - 1]);
    }
  }

  lemma {:induction false} TotalFalls<T>(m: Mem<T>, g: View, m': Mem<T>, g': View, threads: seq<Pc<T>>, t: nat, pc: Pc<T>)
    requires NoCommit(m, g, m', g') && t < |threads| && Rank(m', g', pc) < Rank(m, g, threads[t])
    ensures TotalRank(m', g', threads[t := pc]) < TotalRank(m, g, threads)
  {
    hide Rank, NoCommit;
    var n := |threads| - 1;
    if t < n {
      TotalFalls(m, g, m', g', threads[..n], t, pc);
      RankStays(m, g, m', g', threads[n]);
      assert threads[t := pc][..n] == threads[..n][t := pc];
    } else {
      TotalStays(m, g, m', g', threads[..n]);
      assert threads[t := pc][..n] == threads[..n];
    }
  }

  /** From call `i` of the run on, nothing commits. */
  ghost predicate Commitless<T>(threads: nat, sched: seq<Choice<T>>, i: nat)
    requires Schedule(threads, sched)
  {
    forall k :: i <= k < |sched| ==> !History(threads, sched)[k].event.Commit?
  }

  lemma {:induction false} RankLeft<T>(threads: nat, sched: seq<Choice<T>>, i: nat)
    requires Schedule(threads, sched) && i <= |sched| && Commitless(threads, sched, i)
    ensures
      var s, s0 := Run(threads, sched), Run(threads, sched[..i]);
      |sched| - i + TotalRank(s.mem, RunView(threads, sched), s.threads)
      <= TotalRank(s0.mem, RunView(threads, sched[..i]), s0.threads)
    decreases |sched|
  {
    if i == |sched| {
      assert sched[..i] == sched;
    } else {
      var prefix := sched[..|sched| - 1];
      var last := sched[|sched| - 1];
      var s, g := Run(threads, prefix), RunView(threads, prefix);
      var h := History(threads, sched);
      assert h[..|prefix|] == History(threads, prefix);
      assert forall k :: i <= k < |prefix| ==> h[..|prefix|][k] == h[k];
      RankLeft(threads, prefix, i);
      assert prefix[..i] == sched[..i];
      ReachableInv(threads, prefix);
      StepRefines(s, g, last.thread, last.op);
      var pc := s.threads[last.thread];
      assert h[|prefix|].event == Act(s.mem, pc, last.op).event;
      assert ThreadOk(s.mem, g, pc);
      RankStep(s, g, last.thread, last.op);
    }
  }

  lemma RankStep<T>(s: State<T>, g: View, t: nat, op: Op<T>)
    requires Inv(s, g) && t < |s.threads| && !Act(s.mem, s.threads[t], op).event.Commit?
    ensures
      var g' := Follow(s.mem, g, s.threads[t]);
      TotalRank(Step(s, t, op).mem, g', Step(s, t, op).threads) < TotalRank(s.mem, g, s.threads)
  {
    hide Rank, NoCommit, Act, Follow;
    StepRefines(s, g, t, op);
    var pc := s.threads[t];
    assert ThreadOk(s.mem, g, pc);
    MoveNoCommit(s.mem, g, pc, op);
    RankFalls(s.mem, g, pc, op);
    TotalFalls(s.mem, g, Act(s.mem, pc, op).mem, Follow(s.mem, g, pc), s.threads, t, Act(s.mem, pc, op).pc);
  }

  /** The queue is lock-free: with n threads, some call takes effect among any 12 n + 1
      transitions in a row, whoever takes them and however they fall. */
  lemma LockFree<T>(threads: nat, sched: seq<Choice<T>>, i: nat)
    requires Schedule(threads, sched) && i <= |sched| && Commitless(threads, sched, i)
    ensures |sched| - i <= RANK_MAX * threads
  {
    RankLeft(threads, sched, i);
    var s, g := Run(threads, sched[..i]), RunView(threads, sched[..i]);
    ReachableInv(threads, sched[..i]);
    TotalStays(s.mem, g, s.mem, g, s.threads);
  }

  /** The last transition of a run. */
  lemma LastStep<T>(threads: nat, sched: seq<Choice<T>>)
    requires Schedule(threads, sched) && sched != []
    ensures
      var n := |sched| - 1;
      var s, t, op := Run(threads, sched[..n]), sched[n].thread, sched[n].op;
      && Run(threads, sched) == Step(s, t, op) && History(threads, sched)[n] == Label(t, Act(s.mem, s.threads[t], op).event)
      && forall k :: 0 <= k < n ==> History(threads, sched)[k] == History(threads, sched[..n])[k]
  {
  }

  /** Who sets a successor or moves the head commits; who works with a head was silent since it
      looked. */
  lemma ActLinks<T>(m: Mem<T>, pc: Pc<T>, op: Op<T>, p: Ptr)
    requires p < |m.nodes|
    ensures
      var mv := Act(m, pc, op);
      && (m.nodes[p].next.None? && LoadNext(mv.mem, p).Some? ==> mv.event.Commit? && mv.event.op.Enqueue?)
      && (mv.mem.head != m.head ==> mv.event.Commit? && mv.event.op.Dequeue?)
      && |m.nodes| <= |mv.mem.nodes|
      && (HeadOf(mv.pc).Some? ==> mv.event == Tau && HeadOf(mv.pc) == if HeadOf(pc).Some? then HeadOf(pc) else Some(m.head))
  {
  }

  /** A node gets its successor only by a commit. */
  lemma {:induction false} NextLinked<T>(threads: nat, sched: seq<Choice<T>>, i: nat, p: Ptr) returns (k: nat)
    requires Schedule(threads, sched) && i <= |sched|
    requires p < |Run(threads, sched[..i]).mem.nodes| && Run(threads, sched[..i]).mem.nodes[p].next.None?
    requires LoadNext(Run(threads, sched).mem, p).Some?
    ensures i <= k < |sched| && History(threads, sched)[k].event.Commit? && History(threads, sched)[k].event.op.Enqueue?
    decreases |sched|
  {
    hide Run, History, Act;
    assert sched[..|sched|] == sched;
    var n := |sched| - 1;
    LastStep(threads, sched);
    assert sched[..n][..i] == sched[..i];
    if LoadNext(Run(threads, sched[..n]).mem, p).Some? {
      k := NextLinked(threads, sched[..n], i, p);
    } else {
      NodesStay(threads, sched[..n], i);
      var s := Run(threads, sched[..n]);
      ActLinks(s.mem, s.threads[sched[n].thread], sched[n].op, p);
      k := n;
    }
  }

  lemma {:induction false} NodesStay<T>(threads: nat, sched: seq<Choice<T>>, i: nat)
    requires Schedule(threads, sched) && i <= |sched|
    ensures |Run(threads, sched[..i]).mem.nodes| <= |Run(threads, sched).mem.nodes|
    decreases |sched|
  {
    hide Act;
    if i == |sched| {
      assert sched[..i] == sched;
    } else {
      var n := |sched| - 1;
      assert sched[..n][..i] == sched[..i];
      NodesStay(threads, sched[..n], i);
      var s := Run(threads, sched[..n]);
      ReachableInv(threads, sched[..n]);
      ActLinks(s.mem, s.threads[sched[n].thread], sched[n].op, 0);
    }
  }

  /** The head moves only by a commit. */
  lemma {:induction false} HeadMoved<T>(threads: nat, sched: seq<Choice<T>>, i: nat) returns (k: nat)
    requires Schedule(threads, sched) && i <= |sched|
    requires Run(threads, sched[..i]).mem.head != Run(threads, sched).mem.head
    ensures i <= k < |sched| && History(threads, sched)[k].event.Commit? && History(threads, sched)[k].event.op.Dequeue?
    decreases |sched|
  {
    hide Run, History, Act;
    assert sched[..|sched|] == sched;
    var n := |sched| - 1;
    LastStep(threads, sched);
    assert sched[..n][..i] == sched[..i];
    if Run(threads, sched[..i]).mem.head != Run(threads, sched[..n]).mem.head {
      k := HeadMoved(threads, sched[..n], i);
    } else {
      var s := Run(threads, sched[..n]);
      ReachableInv(threads, sched[..n]);
      ActLinks(s.mem, s.threads[sched[n].thread], sched[n].op, 0);
      k := n;
    }
  }

  /** Thread `t` shows nothing to an observer from step `i` on. */
  ghost predicate Silent<T>(threads: nat, sched: seq<Choice<T>>, i: nat, t: nat)
    requires Schedule(threads, sched)
  {
    forall k :: i <= k < |sched| && sched[k].thread == t ==> History(threads, sched)[k].event == Tau
  }

  lemma SilentNext<T>(threads: nat, sched: seq<Choice<T>>, i: nat, t: nat)
    requires Schedule(threads, sched) && i < |sched| && Silent(threads, sched[..|sched| - 1], i, t)
    requires sched[|sched| - 1].thread == t ==> History(threads, sched)[|sched| - 1].event == Tau
    ensures Silent(threads, sched, i, t)
  {
    var prefix := sched[..|sched| - 1];
    assert History(threads, sched)[..|prefix|] == History(threads, prefix);
    forall k | i <= k < |prefix| && sched[k].thread == t
      ensures History(threads, sched)[k].event == Tau
    {
      assert prefix[k] == sched[k] && History(threads, sched)[..|prefix|][k] == History(threads, sched)[k];
    }
  }

  /** A thread is about to link only after it has seen no successor. */
  lemma ActLooks<T>(m: Mem<T>, pc: Pc<T>, op: Op<T>)
    requires Act(m, pc, op).pc.ELink?
    ensures Act(m, pc, op).event == Tau && pc.ELoadNext? && Act(m, pc, op).pc.tail == pc.tail && LoadNext(m, pc.tail).None?
  {
  }

  /** The tail a thread is about to link to had no successor when the thread looked. */
  lemma {:induction false} TailLoaded<T>(threads: nat, sched: seq<Choice<T>>, t: nat) returns (i: nat)
    requires Schedule(threads, sched) && t < threads && Run(threads, sched).threads[t].ELink?
    ensures i < |sched| && sched[i].thread == t && Silent(threads, sched, i, t)
    ensures
      var p, m := Run(threads, sched).threads[t].tail, Run(threads, sched[..i]).mem;
      p < |m.nodes| && m.nodes[p].next.None?
    decreases |sched|
  {
    assert sched != [];
    hide Run, History, Act;
    var n := |sched| - 1;
    LastStep(threads, sched);
    if sched[n].thread == t {
      i := n;
      var s, g := Run(threads, sched[..n]), RunView(threads, sched[..n]);
      ActLooks(s.mem, s.threads[t], sched[n].op);
      ReachableInv(threads, sched[..n]);
      LookedAt(s, g, t);
    } else {
      i := TailLoaded(threads, sched[..n], t);
      assert sched[..n][..i] == sched[..i];
    }
    SilentNext(threads, sched, i, t);
  }

  lemma LookedAt<T>(s: State<T>, g: View, t: nat)
    requires Inv(s, g) && t < |s.threads| && s.threads[t].ELoadNext?
    ensures s.threads[t].tail < |s.mem.nodes|
  {
    assert ThreadOk(s.mem, g, s.threads[t]);
    SeenIs(s.mem, g, s.threads[t].tail, g.tp);
  }

  function HeadOf<T>(pc: Pc<T>): Option<Ptr> {
    match pc
    case DLoadTail(head) => Some(head)
    case DLoadNext(head, _) => Some(head)
    case DReadValue(head, _) => Some(head)
    case DTake(head, _, _) => Some(head)
    case _ => None
  }

  /** The head a thread works with was the head when the thread looked. */
  lemma {:induction false} HeadLoaded<T>(threads: nat, sched: seq<Choice<T>>, t: nat) returns (i: nat)
    requires Schedule(threads, sched) && t < threads && HeadOf(Run(threads, sched).threads[t]).Some?
    ensures i < |sched| && sched[i].thread == t && Silent(threads, sched, i, t)
    ensures HeadOf(Run(threads, sched).threads[t]) == Some(Run(threads, sched[..i]).mem.head)
    decreases |sched|
  {
    assert sched != [];
    hide Run, History, Act;
    var n := |sched| - 1;
    LastStep(threads, sched);
    var s := Run(threads, sched[..n]);
    ReachableInv(threads, sched[..n]);
    ActLinks(s.mem, s.threads[sched[n].thread], sched[n].op, 0);
    if HeadOf(s.threads[t]).Some? {
      i := HeadLoaded(threads, sched[..n], t);
      assert sched[..n][..i] == sched[..i];
    } else {
      i := n;
    }
    SilentNext(threads, sched, i, t);
  }

  /** A compare-and-swap on a link fails only because another thread's enqueue took effect since
      this thread looked at the node. */
  lemma FailedLink<T>(threads: nat, sched: seq<Choice<T>>, t: nat) returns (i: nat, k: nat)
    requires Schedule(threads, sched) && t < threads && Run(threads, sched).threads[t].ELink?
    requires LoadNext(Run(threads, sched).mem, Run(threads, sched).threads[t].tail).Some?
    ensures i < k < |sched| && sched[i].thread == t && sched[k].thread != t
    ensures History(threads, sched)[k].event.Commit? && History(threads, sched)[k].event.op.Enqueue?
  {
    i := TailLoaded(threads, sched, t);
    k := NextLinked(threads, sched, i, Run(threads, sched).threads[t].tail);
  }

  /** A compare-and-swap on the head fails only because another thread's dequeue took effect since
      this thread looked at it. */
  lemma FailedTake<T>(threads: nat, sched: seq<Choice<T>>, t: nat) returns (i: nat, k: nat)
    requires Schedule(threads, sched) && t < threads && Run(threads, sched).threads[t].DTake?
    requires Run(threads, sched).mem.head != Run(threads, sched).threads[t].head
    ensures i < k < |sched| && sched[i].thread == t && sched[k].thread != t
    ensures History(threads, sched)[k].event.Commit? && History(threads, sched)[k].event.op.Dequeue?
  {
    i := HeadLoaded(threads, sched, t);
    k := HeadMoved(threads, sched, i);
  }
}
