/**
 * The Task3 scheduler: a FIFO queue of fibers drained by a loop that gives
 * the head fiber a turn and queues it again unless it called `fiber_exit()`.
 * Its run loop is proved to compute `RoundRobin.Final`, and its turns to
 * follow `Rotation.Order`.
 */
module Task3Scheduler {
  import opened Scripts
  import Rotation
  import RoundRobin
  import opened Fibers
  import opened Views

  class Scheduler {
    /** The ready queue, head first. */
    var fibers: seq<Fiber>
    /** The fiber that had the latest turn, if any. */
    var current: Fiber?

    constructor ()
      ensures fibers == [] && current == null
    {
      fibers := [];
      current := null;
    }

    /**
     * The whole state as the pure model sees it, with `known` the fibers that
     * may meet the scheduler, `mem` the memory the data pointers reach and
     * `out` the lines written so far.
     */
    ghost function View(known: set<Fiber>, mem: Memory, out: seq<Event>): RoundRobin.State<Fiber>
      reads this, known
    {
      RoundRobin.State(fibers, TasksOf(known), AsOption(current), mem, out)
    }

    /** Puts a fiber at the tail of the queue; nothing else changes. */
    method Spawn(f: Fiber)
      modifies this
      ensures fibers == old(fibers) + [f]
      ensures current == old(current)
    {
      fibers := fibers + [f];
    }

    /** The current fiber's shared-data pointer, or null when no fiber has run. */
    function GetData(): (p: IntPtr)
      reads this
      ensures current == null ==> p == Null
      ensures current != null ==> p == current.data
    {
      if current == null then Null else current.GetData()
    }

    /**
     * `yield()`: the switch back to the run loop saves the current fiber's
     * context so that it resumes at `resumeAt`; its done flag is untouched.
     */
    method Yield(resumeAt: nat)
      requires current != null && current.Valid() && resumeAt < |current.body|
      requires current.done ==> YieldsLeft(current.body, resumeAt) == 0
      modifies current
      ensures current.Valid()
      ensures current.context == Context(resumeAt, old(current.context.rsp))
      ensures current.done == old(current.done)
    {
      current.SaveContext(Context(resumeAt, current.context.rsp));
    }

    /**
     * `fiber_exit()`: marks the current fiber done; the switch back to the run
     * loop saves nothing. The body made no `yield()` since the context it was
     * resumed from.
     */
    method FiberExit()
      requires current != null && current.Valid() && YieldsLeft(current.body, current.context.rip) == 0
      modifies current
      ensures current.Valid() && current.done
      ensures current.context == old(current.context)
    {
      current.MarkDone();
    }

    /**
     * The part of a turn spent in the fiber's body: it runs from the saved
     * context, with `get_data()` answered by the scheduler, up to the next
     * `yield()` or `fiber_exit()`, whose index it returns.
     */
    method RunBody(f: Fiber, mem: Memory) returns (stop: nat, mem': Memory, out: seq<Event>)
      requires current == f && TaskValid(f.AsTask()) && PtrValid(f.data, mem)
      ensures RunSegment(f.body, f.context.rip, f.data, mem) == Segment(stop, mem', out)
    {
      var body := f.body;
      var i := f.context.rip;
      ghost var whole := RunOn(body, i, f.data, mem, []);
      RunOnAgrees(body, i, f.data, mem, []);
      mem' := mem;
      out := [];
      while !IsStop(body[i])
        invariant i < |body| && PtrValid(f.data, mem') && RunOn(body, i, f.data, mem', out) == whole
        decreases |body| - i
      {
        var step := Perform(body[i], GetData(), mem');
        mem' := step.0;
        out := out + step.1;
        i := i + 1;
      }
      stop := i;
    }

    /**
     * The turn that the switch into `f` starts: its body runs, and the
     * `yield()` or `fiber_exit()` it stops at switches back. Of the fibers in
     * `known`, only `f` changes.
     */
    method RunTurn(ghost known: set<Fiber>, f: Fiber, mem: Memory) returns (mem': Memory, out: seq<Event>)
      requires current == f && f in known && f.Valid() && PtrValid(f.data, mem)
      modifies f
      ensures TasksOf(known) == old(TasksOf(known))[f := f.AsTask()]
      ensures f.AsTask() == RoundRobin.Resume(old(f.AsTask()), mem).task
      ensures mem' == RoundRobin.Resume(old(f.AsTask()), mem).mem
      ensures out == RoundRobin.Resume(old(f.AsTask()), mem).out
    {
      ghost var before := TasksOf(known);
      var stop;
      stop, mem', out := RunBody(f, mem);
      YieldsLeftAtStop(f.body, f.context.rip);
      if f.body[stop].Yield? {
        Yield(stop + 1);
      } else {
        FiberExit();
      }
      assert TasksOf(known) == before[f := f.AsTask()] by {
        assert TasksOf(known).Keys == known == before[f := f.AsTask()].Keys;
        forall g | g in known
          ensures TasksOf(known)[g] == before[f := f.AsTask()][g]
        {
          if g != f {
            assert g.AsTask() == old(g.AsTask());
          }
        }
      }
    }

    /**
     * The heap agrees with the pure state `s`: the queue, the current fiber
     * and the saved context and done flag of every fiber in `known`.
     */
    ghost predicate Models(known: set<Fiber>, s: RoundRobin.State<Fiber>)
      reads this, known
    {
      fibers == s.queue && AsOption(current) == s.current && s.tasks == TasksOf(known)
    }

    /**
     * One iteration of the run loop: pop the head fiber, make it current, give
     * it a turn, and queue it again unless it is done.
     */
    method Iterate(ghost known: set<Fiber>, ghost s: RoundRobin.State<Fiber>, mem: Memory, out: seq<Event>)
      returns (mem': Memory, out': seq<Event>, ghost s': RoundRobin.State<Fiber>)
      requires Models(known, s) && RoundRobin.Valid(s) && s.mem == mem && s.out == out
      requires fibers != [] && forall g :: g in known ==> g.StackValid()
      modifies this, known
      ensures Models(known, s') && s' == RoundRobin.Step(s)
      ensures s'.mem == mem' && s'.out == out'
    {
      var f := fibers[0];
      RoundRobin.CoversIn(s.queue, f, s.tasks.Keys);
      ghost var o := RoundRobin.Resume(s.tasks[f], s.mem);
      assert s.tasks[f] == f.AsTask() && f.Valid();
      ghost var next := s.tasks[f := o.task];
      fibers := fibers[1..];
      current := f;
      assert TasksOf(known) == s.tasks;
      var turnOut;
      mem', turnOut := RunTurn(known, f, mem);
      out' := out + turnOut;
      if !f.IsDone() {
        fibers := fibers + [f];
      }
      s' := RoundRobin.Requeue(s, o.task, o.mem, o.out);
      assert s' == RoundRobin.Step(s);
      assert TasksOf(known) == next == s'.tasks;
    }

    /**
     * The run loop of `do_it()`: while the queue is not empty, iterate. It
     * returns in the state `RoundRobin.Final` computes, having given the
     * turns in the order `Rotation.Order` computes.
     */
    method DoIt(mem: Memory) returns (mem': Memory, out: seq<Event>, ghost turns: seq<Fiber>)
      requires forall f :: f in fibers ==> f.Valid() && PtrValid(f.data, mem)
      modifies this, fibers
      ensures RoundRobin.Valid(old(View(Known(fibers), mem, [])))
      ensures View(Known(old(fibers)), mem', out) == RoundRobin.Final(old(View(Known(fibers), mem, [])))
      ensures turns == Rotation.Order(RoundRobin.Abstract(old(View(Known(fibers), mem, []))))
      ensures fibers == []
    {
      ghost var known := Known(fibers);
      ghost var s0 := View(known, mem, []);
      RoundRobin.CoversAll(fibers, known);
      assert s0.tasks.Keys == known;
      assert RoundRobin.AllValid(s0.tasks, mem) by {
        forall g | g in s0.tasks
          ensures TaskValid(s0.tasks[g]) && PtrValid(s0.tasks[g].data, mem)
        {
          assert g in fibers && g.Valid();
        }
      }
      assert forall g :: g in known ==> g.StackValid();
      assert Models(known, s0) && RoundRobin.Valid(s0);
      ghost var s;
      mem', out, turns, s := Drain(known, s0, mem);
    }

    /** The loop of `DoIt`, from a state the heap agrees with. */
    method Drain(ghost known: set<Fiber>, ghost s0: RoundRobin.State<Fiber>, mem: Memory)
      returns (mem': Memory, out: seq<Event>, ghost turns: seq<Fiber>, ghost s: RoundRobin.State<Fiber>)
      requires Models(known, s0) && RoundRobin.Valid(s0) && s0.mem == mem && s0.out == []
      requires forall g :: g in known ==> g.StackValid()
      modifies this, known
      ensures Models(known, s) && s == RoundRobin.Final(s0) && s.mem == mem' && s.out == out
      ensures turns == Rotation.Order(RoundRobin.Abstract(s0))
    {
      s := s0;
      ghost var order0 := Rotation.Order(RoundRobin.Abstract(s0));
      mem' := mem;
      out := [];
      turns := [];
      assert turns + order0 == order0;
      while fibers != []
        invariant Models(known, s) && RoundRobin.Valid(s) && s.mem == mem' && s.out == out
        invariant RoundRobin.Final(s) == RoundRobin.Final(s0)
        invariant turns + Rotation.Order(RoundRobin.Abstract(s)) == order0
        decreases Rotation.Pending(s.queue, RoundRobin.LeftMap(s.tasks))
      {
        var f := fibers[0];
        ghost var before := s;
        mem', out, s := Iterate(known, s, mem', out);
        RoundRobin.LoopStep(before, s0, turns);
        turns := turns + [f];
      }
    }
  }
}
