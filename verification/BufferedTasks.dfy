/** Database tasks buffered per entity. Every method of the buffer holds its lock for one list
    operation only, so what happens between two of them belongs to any thread: the buffer is a
    class, and its use by many threads is a step relation over the same list operations. */
module BufferedTasks {
  import opened Common

  type Task = nat

  // ---------------------------------------------------------------- list operations

  function Front(list: seq<Task>): Option<Task> {
    if list == [] then None else Some(list[0])
  }

  function Popped(list: seq<Task>): seq<Task> {
    if list == [] then [] else list[1..]
  }

  /** The number of tasks in all lists. */
  ghost function Total(m: map<nat, seq<Task>>): nat {
    if m == map[] then 0 else
      var k :| k in m;
      |m[k]| + Total(m - {k})
  }

  /** The total does not depend on the order of summation. */
  lemma {:induction false} TotalWithout(m: map<nat, seq<Task>>, k: nat)
    requires k in m
    ensures Total(m) == |m[k]| + Total(m - {k})
    decreases |m|
  {
    var j :| j in m && Total(m) == |m[j]| + Total(m - {j});
    if j != k {
      TotalWithout(m - {j}, k);
      TotalWithout(m - {k}, j);
      assert m - {j} - {k} == m - {k} - {j};
    }
  }

  lemma {:induction false} TotalZero(m: map<nat, seq<Task>>)
    ensures Total(m) == 0 <==> forall k :: k in m ==> m[k] == []
    decreases |m|
  {
    if m != map[] {
      var k :| k in m;
      TotalWithout(m, k);
      TotalZero(m - {k});
      if Total(m) == 0 {
        forall j | j in m
          ensures m[j] == []
        {
          assert j != k ==> j in m - {k};
        }
      }
    }
  }

  function After(front: Option<Task>, submitted: bool): Option<Stage> {
    match front
    case None => None
    case Some(t) => Some(if submitted then Running(t) else Retry)
  }

  class TaskBuffer {
    var entityTasksMap: map<nat, seq<Task>>

    constructor ()
      ensures entityTasksMap == map[]
    {
      entityTasksMap := map[];
    }

    ghost function Tasks(entity: nat): seq<Task>
      reads this
    {
      if entity in entityTasksMap then entityTasksMap[entity] else []
    }

    /** The locked part of AddTask. */
    method PushBack(entity: nat, t: Task)
      modifies this
      ensures Tasks(entity) == old(Tasks(entity)) + [t]
      ensures forall other :: other != entity ==> Tasks(other) == old(Tasks(other))
      ensures Total(entityTasksMap) == old(Total(entityTasksMap)) + 1
    {
      ghost var before := entityTasksMap;
      if entity !in entityTasksMap {
        entityTasksMap := entityTasksMap[entity := []];
      }
      entityTasksMap := entityTasksMap[entity := entityTasksMap[entity] + [t]];
      assert before - {entity} == entityTasksMap - {entity};
      TotalWithout(entityTasksMap, entity);
      if entity in before {
        TotalWithout(before, entity);
      } else {
        assert before == before - {entity};
      }
    }

    method PopTask(entity: nat) returns (r: Option<Task>)
      modifies this
      ensures r == Front(old(Tasks(entity))) && Tasks(entity) == Popped(old(Tasks(entity)))
      ensures forall other :: other != entity ==> Tasks(other) == old(Tasks(other))
      ensures Total(entityTasksMap) == old(Total(entityTasksMap)) - if r.Some? then 1 else 0
    {
      if entity in entityTasksMap {
        var tasks := entityTasksMap[entity];
        if |tasks| > 0 {
          TotalWithout(entityTasksMap, entity);
          ghost var before := entityTasksMap;
          entityTasksMap := entityTasksMap[entity := tasks[1..]];
          assert before - {entity} == entityTasksMap - {entity};
          TotalWithout(entityTasksMap, entity);
          return Some(tasks[0]);
        }
      }
      return None;
    }

    method GetTask(entity: nat) returns (r: Option<Task>)
      ensures r == Front(Tasks(entity))
    {
      if entity in entityTasksMap {
        var tasks := entityTasksMap[entity];
        if |tasks| > 0 {
          return Some(tasks[0]);
        }
      }
      return None;
    }

    /** Submits the front task, if any; what is left is its execution or, if the pool refuses
        it, a retry timer. */
    method ProcessTask(entity: nat, submitted: bool) returns (left: Option<Stage>)
      ensures left == After(Front(Tasks(entity)), submitted)
    {
      var task := GetTask(entity);
      if task.None? {
        return None;
      }
      if !submitted {
        return Some(Retry);
      }
      return Some(Running(task.value));
    }

    /** AddTask with no other thread between its two halves. */
    method AddTask(entity: nat, t: Task, submitted: bool) returns (left: Option<Stage>)
      modifies this
      ensures Tasks(entity) == old(Tasks(entity)) + [t]
      ensures left == Some(if submitted then Running(Tasks(entity)[0]) else Retry)
    {
      PushBack(entity, t);
      left := ProcessTask(entity, submitted);
    }

    method FinishProcessTask(entity: nat, submitted: bool) returns (left: Option<Stage>)
      modifies this
      ensures Tasks(entity) == Popped(old(Tasks(entity))) && left == After(Front(Tasks(entity)), submitted)
    {
      var done := PopTask(entity);
      left := ProcessTask(entity, submitted);
    }

    method TaskSize() returns (count: nat)
      ensures count == Total(entityTasksMap)
    {
      count := 0;
      var rest := entityTasksMap;
      while rest != map[]
        invariant count + Total(rest) == Total(entityTasksMap)
        decreases |rest|
      {
        var k :| k in rest;
        TotalWithout(rest, k);
        count := count + |rest[k]|;
        rest := rest - {k};
      }
    }
  }

  // ---------------------------------------------------------------- many threads

  /** Where a piece of outstanding work for an entity stands: about to read the front of the
      list, holding a task to submit, waiting for the retry timer, or in the pool. */
  datatype Stage = ToProcess | ToSubmit(task: Task) | Retry | Running(task: Task)

  /** One entity: its list, its outstanding work, and the tasks that arrived, left the list and
      were executed so far. */
  datatype Entity = Entity(list: seq<Task>, work: seq<Stage>, arrived: seq<Task>, left: seq<Task>, executed: seq<Task>)

  const EMPTY := Entity([], [], [], [], [])

  /** A step: a new task is pushed, or piece `k` of the outstanding work moves on. */
  datatype Move = Add(task: Task) | Get(k: nat) | SubmitOk(k: nat) | SubmitFail(k: nat) | Expire(k: nat) | Finish(k: nat)

  function WorkOf(m: Move): nat
    requires !m.Add?
  {
    match m
    case Get(k) => k
    case SubmitOk(k) => k
    case SubmitFail(k) => k
    case Expire(k) => k
    case Finish(k) => k
  }

  /** None if the step is not possible. */
  function Step(x: Entity, m: Move): Option<Entity> {
    if m.Add? then
      Some(x.(list := x.list + [m.task], work := x.work + [ToProcess], arrived := x.arrived + [m.task]))
    else if WorkOf(m) >= |x.work| then None
    else
      var k := WorkOf(m);
      match (m, x.work[k])
      case (Get(_), ToProcess) =>
        (match Front(x.list)
         case None => Some(x.(work := x.work[..k] + x.work[k + 1..]))
         case Some(task) => Some(x.(work := x.work[k := ToSubmit(task)])))
      case (SubmitOk(_), ToSubmit(task)) => Some(x.(work := x.work[k := Running(task)]))
      case (SubmitFail(_), ToSubmit(_)) => Some(x.(work := x.work[k := Retry]))
      case (Expire(_), Retry) => Some(x.(work := x.work[k := ToProcess]))
      case (Finish(_), Running(task)) =>
        Some(x.(work := x.work[k := ToProcess], list := Popped(x.list), executed := x.executed + [task],
                left := x.left + (if x.list == [] then [] else [x.list[0]])))
      case _ => None
  }

  function Run(x: Entity, moves: seq<Move>): Option<Entity>
    decreases |moves|
  {
    if moves == [] then Some(x)
    else match Step(x, moves[0])
         case None => None
         case Some(y) => Run(y, moves[1..])
  }

  /** Tasks leave in arrival order and once each, and outstanding work covers the list. */
  ghost predicate Inv(x: Entity) {
    x.arrived == x.left + x.list && |x.work| >= |x.list|
  }

  lemma StepInv(x: Entity, m: Move)
    requires Inv(x) && Step(x, m).Some?
    ensures Inv(Step(x, m).value)
  {
  }

  /** In every interleaving: first in, first out, once each; nothing outstanding, nothing listed. */
  lemma {:induction false} Fifo(x: Entity, moves: seq<Move>)
    requires Inv(x) && Run(x, moves).Some?
    ensures var y := Run(x, moves).value;
            y.arrived == y.left + y.list && |y.list| <= |y.work| && (y.work == [] ==> y.list == [])
    decreases |moves|
  {
    if moves != [] {
      StepInv(x, moves[0]);
      Fifo(Step(x, moves[0]).value, moves[1..]);
    }
  }

  // ---------------------------------------------------------------- one at a time

  /** At most one piece of outstanding work, and it is about the front task; what was executed
      is what left. */
  ghost predicate Single(x: Entity) {
    && |x.work| <= 1 && Inv(x) && x.executed == x.left
    && (x.work != [] && (x.work[0].ToSubmit? || x.work[0].Running?) ==> x.list != [] && x.work[0].task == x.list[0])
  }

  /** Every push meets an entity with nothing outstanding. */
  ghost predicate AddsMeetIdle(x: Entity, moves: seq<Move>)
    decreases |moves|
  {
    moves != [] && Step(x, moves[0]).Some? ==>
      (moves[0].Add? ==> x.work == []) && AddsMeetIdle(Step(x, moves[0]).value, moves[1..])
  }

  /** Then tasks run one at a time, each exactly once, in arrival order. */
  lemma {:induction false} OneAtATime(x: Entity, moves: seq<Move>)
    requires Single(x) && AddsMeetIdle(x, moves) && Run(x, moves).Some?
    ensures Single(Run(x, moves).value)
    decreases |moves|
  {
    if moves != [] {
      SingleStep(x, moves[0]);
      OneAtATime(Step(x, moves[0]).value, moves[1..]);
    }
  }

  lemma SingleStep(x: Entity, m: Move)
    requires Single(x) && Step(x, m).Some? && (m.Add? ==> x.work == [])
    ensures Single(Step(x, m).value)
  {
  }

  /** Two executions at once. */
  ghost predicate Overlap(x: Entity) {
    exists i, j :: 0 <= i < j < |x.work| && x.work[i].Running? && x.work[j].Running?
  }

  ghost predicate NoAdds(moves: seq<Move>) {
    forall i :: 0 <= i < |moves| ==> !moves[i].Add?
  }

  /** Some interleaving of the outstanding work executes two tasks at once. */
  ghost predicate MayOverlap(x: Entity) {
    exists moves :: NoAdds(moves) && Run(x, moves).Some? && Overlap(Run(x, moves).value)
  }

  /** A push can lead to two executions at once exactly when something was outstanding. */
  lemma OverlapIffBusy(x: Entity, task: Task)
    requires Single(x)
    ensures MayOverlap(Step(x, Add(task)).value) <==> x.work != []
  {
    var y := Step(x, Add(task)).value;
    if x.work == [] {
      if MayOverlap(y) {
        var moves :| NoAdds(moves) && Run(y, moves).Some? && Overlap(Run(y, moves).value);
        NoAddsMeetIdle(y, moves);
        OneAtATime(y, moves);
        assert false;
      }
    } else {
      var first := MovesToRunning(x.work[0], 0);
      var second := [Get(1), SubmitOk(1)];
      FirstRuns(y);
      var z := Run(y, first).value;
      assert Run(z, second[..1]).Some?;
      assert second[1..] == [SubmitOk(1)];
      RunsOn(z, second);
      RunConcat(y, first, second);
      assert Overlap(Run(y, first + second).value);
      assert NoAdds(first + second);
    }
  }

  lemma {:induction false} NoAddsMeetIdle(x: Entity, moves: seq<Move>)
    requires NoAdds(moves)
    ensures AddsMeetIdle(x, moves)
    decreases |moves|
  {
    if moves != [] && Step(x, moves[0]).Some? {
      NoAddsMeetIdle(Step(x, moves[0]).value, moves[1..]);
    }
  }

  /** The steps that bring a piece of work into the pool. */
  function MovesToRunning(s: Stage, k: nat): seq<Move> {
    match s
    case ToProcess => [Get(k), SubmitOk(k)]
    case ToSubmit(_) => [SubmitOk(k)]
    case Retry => [Expire(k), Get(k), SubmitOk(k)]
    case Running(_) => []
  }

  lemma FirstRuns(y: Entity)
    requires |y.work| == 2 && y.list != []
    ensures
      var r := Run(y, MovesToRunning(y.work[0], 0));
      r.Some? && r.value.list == y.list && |r.value.work| == 2 && r.value.work[0].Running? && r.value.work[1] == y.work[1]
  {
    match y.work[0] {
      case Running(_) =>
      case ToSubmit(_) => RunOne(y, SubmitOk(0));
      case ToProcess => RunTwo(y, Get(0), SubmitOk(0));
      case Retry =>
        var y1 := Step(y, Expire(0)).value;
        RunTwo(y1, Get(0), SubmitOk(0));
        assert [Expire(0), Get(0), SubmitOk(0)][1..] == [Get(0), SubmitOk(0)];
    }
  }

  lemma RunOne(x: Entity, m: Move)
    ensures Run(x, [m]) == Step(x, m)
  {
    assert [m][1..] == [];
  }

  lemma RunTwo(x: Entity, m: Move, n: Move)
    requires Step(x, m).Some?
    ensures Run(x, [m, n]) == Step(Step(x, m).value, n)
  {
    assert [m, n][1..] == [n];
    RunOne(Step(x, m).value, n);
  }

  lemma RunsOn(z: Entity, second: seq<Move>)
    requires second == [Get(1), SubmitOk(1)]
    requires |z.work| == 2 && z.list != [] && z.work[0].Running? && z.work[1] == ToProcess
    ensures Run(z, second).Some? && Overlap(Run(z, second).value)
  {
    RunTwo(z, Get(1), SubmitOk(1));
    var w := Run(z, second).value.work;
    assert w[0].Running? && w[1].Running?;
  }

  lemma {:induction false} RunConcat(x: Entity, first: seq<Move>, second: seq<Move>)
    requires Run(x, first).Some?
    ensures Run(x, first + second) == Run(Run(x, first).value, second)
    decreases |first|
  {
    if first == [] {
      assert first + second == second;
    } else {
      assert (first + second)[1..] == first[1..] + second;
      RunConcat(Step(x, first[0]).value, first[1..], second);
    }
  }

  /** Meeting an empty list is not enough: a thread between its pop and its look at the list
      takes up the new task as well. Both pushes here meet an empty list. */
  lemma EmptyListIsNotEnough()
    ensures
      var before := [Add(1), Get(0), SubmitOk(0), Finish(0)];
      var x := Run(EMPTY, before);
      && x.Some? && x.value.list == [] && MayOverlap(Step(x.value, Add(2)).value)
  {
    var x1 := Step(EMPTY, Add(1)).value;
    var before := [Add(1), Get(0), SubmitOk(0), Finish(0)];
    RunTwo(x1, Get(0), SubmitOk(0));
    var x2 := Run(x1, [Get(0), SubmitOk(0)]).value;
    assert before[1..] == [Get(0), SubmitOk(0)] + [Finish(0)];
    RunConcat(x1, [Get(0), SubmitOk(0)], [Finish(0)]);
    RunOne(x2, Finish(0));
    var x := Run(EMPTY, before).value;
    assert x.work == [ToProcess];
    OverlapIffBusy(x, 2);
  }

  // ---------------------------------------------------------------- all entities

  type System = map<nat, Entity>

  function Of(s: System, e: nat): Entity {
    if e in s then s[e] else EMPTY
  }

  /** A run of the whole buffer: each step belongs to one entity. */
  function RunAll(s: System, acts: seq<(nat, Move)>): Option<System>
    decreases |acts|
  {
    if acts == [] then Some(s)
    else match Step(Of(s, acts[0].0), acts[0].1)
         case None => None
         case Some(x) => RunAll(s[acts[0].0 := x], acts[1..])
  }

  /** The steps of entity `e`. */
  function Project(acts: seq<(nat, Move)>, e: nat): seq<Move> {
    if acts == [] then []
    else if acts[0].0 == e then [acts[0].1] + Project(acts[1..], e)
    else Project(acts[1..], e)
  }

  /** Entities do not disturb each other: what all threads do to one entity is a run of it. */
  lemma {:induction false} Independent(s: System, acts: seq<(nat, Move)>, e: nat)
    requires RunAll(s, acts).Some?
    ensures Run(Of(s, e), Project(acts, e)) == Some(Of(RunAll(s, acts).value, e))
    decreases |acts|
  {
    if acts != [] {
      var s' := s[acts[0].0 := Step(Of(s, acts[0].0), acts[0].1).value];
      Independent(s', acts[1..], e);
      if acts[0].0 == e {
        assert Project(acts, e)[1..] == Project(acts[1..], e);
      }
    }
  }

  function Lists(s: System): map<nat, seq<Task>> {
    map e | e in s :: s[e].list
  }

  /** The shutdown test: with nothing outstanding for any entity, the task size is 0. */
  lemma NothingOutstanding(acts: seq<(nat, Move)>)
    requires RunAll(map[], acts).Some?
    requires forall e :: e in RunAll(map[], acts).value ==> RunAll(map[], acts).value[e].work == []
    ensures Total(Lists(RunAll(map[], acts).value)) == 0
  {
    var s := RunAll(map[], acts).value;
    forall e | e in Lists(s)
      ensures Lists(s)[e] == []
    {
      Independent(map[], acts, e);
      Fifo(EMPTY, Project(acts, e));
    }
    TotalZero(Lists(s));
  }
}
