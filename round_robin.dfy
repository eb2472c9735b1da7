/**
 * The Task3 scheduler as a pure state machine over whole states: the ready
 * queue, the fibers' saved contexts and done flags, the memory their
 * shared-data pointers reach, and the lines their bodies write.
 *
 * Fibers are identified by a type `F` (object identity in the imperative
 * model), so that a fiber spawned twice occupies two queue entries but has a
 * single saved context and done flag, as with the `Fiber*` entries of the
 * source's deque.
 */
module RoundRobin {
  import opened Scripts
  import Rotation

  /** The `yield()` calls a fiber still makes when resumed from its saved context. */
  function Left(t: Task): nat {
    YieldsLeft(t.body, t.rip)
  }

  /** The fiber after its turn, the memory the turn left and the lines it wrote. */
  datatype Outcome = Outcome(task: Task, mem: Memory, out: seq<Event>)

  /**
   * One turn of a fiber: the swap into its context runs the body up to the
   * next `yield()`, which saves the context just after that call, or up to
   * `fiber_exit()`, which marks the fiber done and saves nothing.
   */
  function Resume(t: Task, mem: Memory): (o: Outcome)
    requires TaskValid(t) && PtrValid(t.data, mem)
    ensures TaskValid(o.task) && o.mem.Keys == mem.Keys
    ensures o.task.body == t.body && o.task.data == t.data
    ensures o.task.done <==> Left(t) == 0
    ensures o.task.done ==> o.task.rip == t.rip
    ensures !o.task.done ==> Left(o.task) + 1 == Left(t)
  {
    var seg := RunSegment(t.body, t.rip, t.data, mem);
    YieldsLeftAtStop(t.body, t.rip);
    if t.body[seg.stop].Yield? then Outcome(t.(rip := seg.stop + 1), seg.mem, seg.out)
    else Outcome(t.(done := true), seg.mem, seg.out)
  }

  /**
   * The scheduler's state: the ready queue, every fiber it may meet, the
   * current fiber, the memory shared through data pointers, and the lines the
   * fiber bodies have written so far.
   */
  datatype State<F> = State(queue: seq<F>, tasks: map<F, Task>, current: Option<F>,
                            mem: Memory, out: seq<Event>)

  /** Every queue entry names a known fiber. */
  predicate Covers<F(==)>(q: seq<F>, known: set<F>) {
    q == [] || (q[0] in known && Covers(q[1..], known))
  }

  lemma {:induction false} CoversAppend<F>(q: seq<F>, f: F, known: set<F>)
    requires Covers(q, known) && f in known
    ensures Covers(q + [f], known)
  {
    if q != [] {
      assert (q + [f])[1..] == q[1..] + [f];
      CoversAppend(q[1..], f, known);
    }
  }

  lemma {:induction false} CoversAll<F>(q: seq<F>, known: set<F>)
    requires forall f :: f in q ==> f in known
    ensures Covers(q, known)
  {
    if q != [] {
      CoversAll(q[1..], known);
    }
  }

  lemma {:induction false} CoversIn<F>(q: seq<F>, f: F, known: set<F>)
    requires Covers(q, known) && f in q
    ensures f in known
  {
    if q[0] != f {
      CoversIn(q[1..], f, known);
    }
  }

  /** Every known fiber can be resumed, and its data pointer is null or points into `mem`. */
  predicate AllValid<F(==)>(tasks: map<F, Task>, mem: Memory) {
    forall f :: f in tasks ==> TaskValid(tasks[f]) && PtrValid(tasks[f].data, mem)
  }

  predicate Valid<F(==)>(s: State<F>) {
    Covers(s.queue, s.tasks.Keys) && AllValid(s.tasks, s.mem)
  }

  /** The remaining `yield()` calls of every known fiber. */
  function LeftMap<F(==)>(tasks: map<F, Task>): (w: map<F, nat>)
    ensures w.Keys == tasks.Keys
    ensures forall f :: f in tasks ==> w[f] == Left(tasks[f])
  {
    map f | f in tasks :: Left(tasks[f])
  }

  /** What decides the order of the remaining turns: the queue and the yields left. */
  function Abstract<F(==)>(s: State<F>): Rotation.Ready<F> {
    Rotation.Ready(s.queue, LeftMap(s.tasks))
  }

  /**
   * The end of an iteration of the run loop, once the popped head fiber has
   * had its turn and left context `t`: it becomes current, and it goes back to
   * the tail exactly when it is not done.
   */
  function Requeue<F(==)>(s: State<F>, t: Task, mem: Memory, out: seq<Event>): (r: State<F>)
    requires s.queue != []
  {
    var f := s.queue[0];
    var queue := if t.done then s.queue[1..] else s.queue[1..] + [f];
    State(queue, s.tasks[f := t], Some(f), mem, s.out + out)
  }

  /** One iteration of the run loop: pop the head fiber and give it a turn. */
  function Step<F(==)>(s: State<F>): (r: State<F>)
    requires Valid(s) && s.queue != []
    ensures Valid(r) && r.tasks.Keys == s.tasks.Keys && r.current == Some(s.queue[0])
  {
    var f := s.queue[0];
    var o := Resume(s.tasks[f], s.mem);
    var r := Requeue(s, o.task, o.mem, o.out);
    assert r.tasks.Keys == s.tasks.Keys;
    assert Covers(s.queue[1..], s.tasks.Keys);
    CoversAppend(s.queue[1..], f, s.tasks.Keys);
    r
  }

  /**
   * Requeueing a fiber whose new context used up one `yield()`, or that is
   * done and had none left, is a turn of the queue discipline.
   */
  lemma RequeueIsTurn<F>(s: State<F>, t: Task, mem: Memory, out: seq<Event>)
    requires s.queue != [] && s.queue[0] in s.tasks
    requires t.done <==> Left(s.tasks[s.queue[0]]) == 0
    requires t.done ==> Left(t) == 0
    requires !t.done ==> Left(t) + 1 == Left(s.tasks[s.queue[0]])
    ensures Abstract(Requeue(s, t, mem, out)) == Rotation.Turn(Abstract(s))
  {
    var f := s.queue[0];
    var w := LeftMap(s.tasks);
    var w' := LeftMap(s.tasks[f := t]);
    if t.done {
      assert w' == w;
    } else {
      assert w' == w[f := Left(t)];
    }
  }

  /**
   * A step of the whole state is a turn of the queue discipline: the popped
   * fiber goes back to the tail exactly when it has a `yield()` left, and
   * that turn uses one up.
   */
  lemma StepIsTurn<F>(s: State<F>)
    requires Valid(s) && s.queue != []
    ensures Abstract(Step(s)) == Rotation.Turn(Abstract(s))
  {
    var o := Resume(s.tasks[s.queue[0]], s.mem);
    RequeueIsTurn(s, o.task, o.mem, o.out);
  }

  /** Every turn brings the run closer to its end. */
  lemma StepShrinks<F>(s: State<F>)
    requires Valid(s) && s.queue != []
    ensures Rotation.Pending(Step(s).queue, LeftMap(Step(s).tasks)) <
            Rotation.Pending(s.queue, LeftMap(s.tasks))
  {
    StepIsTurn(s);
    Rotation.TurnShrinks(Abstract(s));
  }

  /**
   * A turn touches only the popped fiber's entry, never clears a done flag,
   * and keeps every fiber's body and shared-data pointer.
   */
  lemma StepFrame<F>(s: State<F>)
    requires Valid(s) && s.queue != []
    ensures forall f :: f in s.tasks && f != s.queue[0] ==> Step(s).tasks[f] == s.tasks[f]
    ensures forall f :: f in s.tasks && s.tasks[f].done ==> Step(s).tasks[f].done
    ensures forall f :: f in s.tasks ==>
              Step(s).tasks[f].body == s.tasks[f].body && Step(s).tasks[f].data == s.tasks[f].data
  {
  }

  /**
   * The state in which the run loop returns: it steps until the queue is
   * empty, and ends because every turn either consumes one of a fiber's
   * remaining `yield()` calls or drops a queue entry.
   */
  function Final<F(==)>(s: State<F>): (r: State<F>)
    requires Valid(s)
    ensures Valid(r) && r.queue == [] && r.tasks.Keys == s.tasks.Keys
    decreases Rotation.Pending(s.queue, LeftMap(s.tasks))
  {
    if s.queue == [] then s
    else
      StepShrinks(s);
      Final(Step(s))
  }

  /**
   * One iteration of the run loop keeps its result and hands the head fiber
   * its turn: the turns already given followed by the order from the new
   * state are still the order from the start.
   */
  lemma LoopStep<F>(s: State<F>, s0: State<F>, turns: seq<F>)
    requires Valid(s) && Valid(s0) && s.queue != []
    requires Final(s) == Final(s0)
    requires turns + Rotation.Order(Abstract(s)) == Rotation.Order(Abstract(s0))
    ensures Final(Step(s)) == Final(s0)
    ensures (turns + [s.queue[0]]) + Rotation.Order(Abstract(Step(s))) == Rotation.Order(Abstract(s0))
    ensures Rotation.Pending(Step(s).queue, LeftMap(Step(s).tasks)) <
            Rotation.Pending(s.queue, LeftMap(s.tasks))
  {
    FinalStep(s);
    OrderStep(s);
    StepShrinks(s);
    MoveTurn(turns, s.queue[0], Rotation.Order(Abstract(Step(s))), Rotation.Order(Abstract(s0)));
  }

  lemma MoveTurn<F>(turns: seq<F>, f: F, rest: seq<F>, whole: seq<F>)
    requires turns + ([f] + rest) == whole
    ensures (turns + [f]) + rest == whole
  {
    assert (turns + [f]) + rest == turns + ([f] + rest);
  }

  lemma FinalStep<F>(s: State<F>)
    requires Valid(s) && s.queue != []
    ensures Final(Step(s)) == Final(s)
  {
  }

  lemma OrderStep<F>(s: State<F>)
    requires Valid(s) && s.queue != []
    ensures Rotation.Order(Abstract(s)) == [s.queue[0]] + Rotation.Order(Abstract(Step(s)))
  {
    StepIsTurn(s);
    Rotation.TurnShrinks(Abstract(s));
  }

  /** The popped fiber goes back to the tail exactly when its turn did not end in `fiber_exit()`. */
  lemma StepQueue<F>(s: State<F>)
    requires Valid(s) && s.queue != []
    ensures Step(s).queue ==
            if Step(s).tasks[s.queue[0]].done then s.queue[1..] else s.queue[1..] + [s.queue[0]]
  {
  }

  /** No done flag is ever cleared. */
  lemma {:induction false} FinalKeepsDone<F>(s: State<F>, f: F)
    requires Valid(s) && f in s.tasks && s.tasks[f].done
    ensures Final(s).tasks[f].done
    decreases Rotation.Pending(s.queue, LeftMap(s.tasks))
  {
    if s.queue != [] {
      StepShrinks(s);
      StepFrame(s);
      FinalKeepsDone(Step(s), f);
    }
  }

  /** The run returns only when every fiber that was queued is done. */
  lemma {:induction false} FinalAllDone<F>(s: State<F>, f: F)
    requires Valid(s) && f in s.queue
    ensures f in Final(s).tasks && Final(s).tasks[f].done
    decreases Rotation.Pending(s.queue, LeftMap(s.tasks))
  {
    CoversIn(s.queue, f, s.tasks.Keys);
    var s1 := Step(s);
    StepShrinks(s);
    StepQueue(s);
    if f in s.queue[1..] {
      assert f in s1.queue;
      FinalAllDone(s1, f);
    } else if s1.tasks[f].done {
      FinalKeepsDone(s1, f);
    } else {
      assert f in s1.queue;
      FinalAllDone(s1, f);
    }
  }

  /**
   * The current fiber is never cleared: the run leaves it at the fiber that
   * had the last turn of the rotation, or untouched when nothing was queued.
   */
  lemma {:induction false} FinalCurrent<F>(s: State<F>)
    requires Valid(s)
    ensures var order := Rotation.Order(Abstract(s));
            Final(s).current == if order == [] then s.current else Some(order[|order| - 1])
    decreases Rotation.Pending(s.queue, LeftMap(s.tasks))
  {
    if s.queue != [] {
      StepShrinks(s);
      StepIsTurn(s);
      Rotation.TurnShrinks(Abstract(s));
      FinalCurrent(Step(s));
    }
  }
}
