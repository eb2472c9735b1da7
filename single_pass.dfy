/**
 * The Task2 scheduler as a pure function: one pass over the queue in which
 * every entry, in queue order, becomes current and runs its body from its
 * saved context up to `fiber_exit()`. Nothing is queued again and no context
 * or done flag is ever written, so the fibers' state is a fixed map.
 */
module SinglePass {
  import opened Scripts
  import RoundRobin

  /** The current fiber, the memory behind the data pointers and the lines written so far. */
  datatype Run<F> = Run(current: Option<F>, mem: Memory, out: seq<Event>)

  /** Every queued entry names a fiber whose body can run against `mem`. */
  predicate Ready<F(==)>(q: seq<F>, tasks: map<F, Task>, mem: Memory) {
    RoundRobin.Covers(q, tasks.Keys) && RoundRobin.AllValid(tasks, mem)
  }

  /** Whether a data pointer is usable depends only on which addresses exist. */
  lemma SameKeysValid<F>(tasks: map<F, Task>, mem: Memory, mem': Memory)
    requires RoundRobin.AllValid(tasks, mem) && mem'.Keys == mem.Keys
    ensures RoundRobin.AllValid(tasks, mem')
  {
  }

  /**
   * The run loop of `do_it()`: pop the head entry, make it current and switch
   * to its saved context; its `fiber_exit()` switches back to the loop.
   */
  function Pass<F(==)>(q: seq<F>, tasks: map<F, Task>, r: Run<F>): (r': Run<F>)
    requires Ready(q, tasks, r.mem)
    ensures r'.mem.Keys == r.mem.Keys
    ensures r'.current == if q == [] then r.current else Some(q[|q| - 1])
    ensures |r'.out| >= |r.out| && r'.out[..|r.out|] == r.out
    decreases |q|
  {
    if q == [] then r
    else
      var t := tasks[q[0]];
      var seg := RunSegment(t.body, t.rip, t.data, r.mem);
      SameKeysValid(tasks, r.mem, seg.mem);
      var r' := Pass(q[1..], tasks, Run(Some(q[0]), seg.mem, r.out + seg.out));
      assert r'.out[..|r.out|] == (r.out + seg.out)[..|r.out|];
      r'
  }

  /** The first iteration of the pass: the head entry's turn, then the pass over the rest. */
  lemma PassUnroll<F>(q: seq<F>, tasks: map<F, Task>, r: Run<F>)
    requires Ready(q, tasks, r.mem) && q != []
    ensures var t := tasks[q[0]];
            var seg := RunSegment(t.body, t.rip, t.data, r.mem);
            Ready(q[1..], tasks, seg.mem) &&
            Pass(q, tasks, r) == Pass(q[1..], tasks, Run(Some(q[0]), seg.mem, r.out + seg.out))
  {
    var t := tasks[q[0]];
    SameKeysValid(tasks, r.mem, RunSegment(t.body, t.rip, t.data, r.mem).mem);
  }

  lemma {:induction false} CoversSplit<F>(q1: seq<F>, q2: seq<F>, known: set<F>)
    ensures RoundRobin.Covers(q1 + q2, known) <==> RoundRobin.Covers(q1, known) && RoundRobin.Covers(q2, known)
  {
    if q1 != [] {
      assert (q1 + q2)[1..] == q1[1..] + q2;
      CoversSplit(q1[1..], q2, known);
    } else {
      assert q1 + q2 == q2;
    }
  }

  /**
   * Spawning more fibers before `do_it()` only appends to the run: a pass
   * over `q1 + q2` is a pass over `q1` followed by a pass over `q2`.
   */
  lemma {:induction false} PassAppend<F>(q1: seq<F>, q2: seq<F>, tasks: map<F, Task>, r: Run<F>)
    requires Ready(q1 + q2, tasks, r.mem)
    ensures Ready(q1, tasks, r.mem) && Ready(q2, tasks, Pass(q1, tasks, r).mem)
    ensures Pass(q1 + q2, tasks, r) == Pass(q2, tasks, Pass(q1, tasks, r))
    decreases |q1|
  {
    CoversSplit(q1, q2, tasks.Keys);
    SameKeysValid(tasks, r.mem, Pass(q1, tasks, r).mem);
    if q1 == [] {
      assert q1 + q2 == q2;
    } else {
      var t := tasks[q1[0]];
      var seg := RunSegment(t.body, t.rip, t.data, r.mem);
      SameKeysValid(tasks, r.mem, seg.mem);
      assert (q1 + q2)[0] == q1[0] && (q1 + q2)[1..] == q1[1..] + q2;
      PassAppend(q1[1..], q2, tasks, Run(Some(q1[0]), seg.mem, r.out + seg.out));
    }
  }

  /** The pass reads only bodies, data pointers and saved contexts, never done flags. */
  lemma {:induction false} PassIgnoresDone<F>(q: seq<F>, tasks: map<F, Task>, f: F, r: Run<F>)
    requires Ready(q, tasks, r.mem) && f in tasks && RoundRobin.Left(tasks[f]) == 0
    ensures Ready(q, tasks[f := tasks[f].(done := true)], r.mem)
    ensures Pass(q, tasks[f := tasks[f].(done := true)], r) == Pass(q, tasks, r)
    decreases |q|
  {
    var tasks' := tasks[f := tasks[f].(done := true)];
    assert tasks'.Keys == tasks.Keys;
    if q != [] {
      var t := tasks[q[0]];
      var seg := RunSegment(t.body, t.rip, t.data, r.mem);
      SameKeysValid(tasks, r.mem, seg.mem);
      PassIgnoresDone(q[1..], tasks, f, Run(Some(q[0]), seg.mem, r.out + seg.out));
    }
  }

  /** No known fiber has a `yield()` left before its `fiber_exit()`. */
  predicate NoYieldsLeft<F(==)>(tasks: map<F, Task>) {
    forall f :: f in tasks ==> RoundRobin.Left(tasks[f]) == 0
  }

  /** A round-robin turn of a fiber with no `yield()` left is a Task2 turn that also sets its done flag. */
  lemma StepWithoutYield<F>(s: RoundRobin.State<F>)
    requires RoundRobin.Valid(s) && s.queue != [] && RoundRobin.Left(s.tasks[s.queue[0]]) == 0
    ensures var f := s.queue[0];
            var t := s.tasks[f];
            var seg := RunSegment(t.body, t.rip, t.data, s.mem);
            RoundRobin.Step(s) == RoundRobin.State(s.queue[1..], s.tasks[f := t.(done := true)],
                                                   Some(f), seg.mem, s.out + seg.out)
  {
  }

  /**
   * Task2 is Task3 without `yield()`: when no fiber has a `yield()` left, the
   * round-robin run loop gives every entry one turn in queue order and ends
   * with the same memory, the same lines and the same current fiber as the
   * single pass.
   */
  lemma {:induction false} NoYieldAgrees<F>(s: RoundRobin.State<F>)
    requires RoundRobin.Valid(s) && NoYieldsLeft(s.tasks)
    ensures Ready(s.queue, s.tasks, s.mem)
    ensures var p := Pass(s.queue, s.tasks, Run(s.current, s.mem, s.out));
            var e := RoundRobin.Final(s);
            e.mem == p.mem && e.out == p.out && e.current == p.current
    decreases |s.queue|
  {
    if s.queue != [] {
      var f := s.queue[0];
      var t := s.tasks[f];
      var seg := RunSegment(t.body, t.rip, t.data, s.mem);
      var done := s.tasks[f := t.(done := true)];
      var r1 := Run(Some(f), seg.mem, s.out + seg.out);
      var s1 := RoundRobin.Step(s);
      assert s1 == RoundRobin.State(s.queue[1..], done, Some(f), seg.mem, s.out + seg.out) by {
        StepWithoutYield(s);
      }
      assert NoYieldsLeft(s1.tasks);
      assert RoundRobin.Final(s1) == RoundRobin.Final(s) by {
        RoundRobin.FinalStep(s);
      }
      assert Ready(s.queue[1..], s.tasks, seg.mem) && Pass(s.queue[1..], done, r1) == Pass(s.queue[1..], s.tasks, r1) by {
        SameKeysValid(s.tasks, s.mem, seg.mem);
        PassIgnoresDone(s.queue[1..], s.tasks, f, r1);
      }
      NoYieldAgrees(s1);
    }
  }
}
