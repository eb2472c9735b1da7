/**
 * The Task2 scheduler: a FIFO queue of fibers drained in a single pass. Each
 * popped fiber becomes current and is switched to with `set_context`, which
 * saves nothing; the fiber's `fiber_exit()` switches back to the loop. Its
 * run loop is proved to compute `SinglePass.Pass`.
 */
module Task2Scheduler {
  import opened Scripts
  import RoundRobin
  import SinglePass
  import opened Fibers
  import opened Views

  class Scheduler {
    /** The queue of fibers still to run, head first. */
    var fibers: seq<Fiber>
    /** The fiber that was switched to last, if any. */
    var current: Fiber?

    constructor ()
      ensures fibers == [] && current == null
    {
      fibers := [];
      current := null;
    }

    /** Puts a fiber at the tail of the queue; nothing else changes. */
    method Spawn(f: Fiber)
      modifies this
      ensures fibers == old(fibers) + [f]
      ensures current == old(current)
    {
      fibers := fibers + [f];
    }

    /** The current fiber's shared-data pointer, or null when no fiber has run. */
    function GetData(): (p: IntPtr)
      reads this
      ensures current == null ==> p == Null
      ensures current != null ==> p == current.data
    {
      if current == null then Null else current.GetData()
    }

    /**
     * The switch into `f`: its body runs from the saved context, with
     * `get_data()` answered by the scheduler, until `fiber_exit()` switches
     * back. Neither the fiber nor the scheduler is changed.
     */
    method RunTurn(f: Fiber, mem: Memory) returns (mem': Memory, out: seq<Event>)
      requires current == f && TaskValid(f.AsTask()) && PtrValid(f.data, mem)
      ensures var seg := RunSegment(f.body, f.context.rip, f.data, mem);
              mem' == seg.mem && out == seg.out
    {
      var body := f.body;
      var i := f.context.rip;
      ghost var whole := RunOn(body, i, f.data, mem, []);
      RunOnAgrees(body, i, f.data, mem, []);
      mem' := mem;
      out := [];
      while !IsStop(body[i])
        invariant i < |body| && PtrValid(f.data, mem') && RunOn(body, i, f.data, mem', out) == whole
        decreases |body| - i
      {
        var step := Perform(body[i], GetData(), mem');
        mem' := step.0;
        out := out + step.1;
        i := i + 1;
      }
    }

    /** One iteration of the run loop: pop the head entry, make it current and run it. */
    method Next(ghost known: set<Fiber>, ghost tasks: map<Fiber, Task>, mem: Memory, out: seq<Event>)
      returns (f: Fiber, mem': Memory, out': seq<Event>)
      requires fibers != [] && tasks.Keys == known && SinglePass.Ready(fibers, tasks, mem)
      requires tasks == TasksOf(known)
      modifies this
      ensures tasks == TasksOf(known)
      ensures f == old(fibers)[0] && current == f
      ensures old(fibers) == [f] + fibers
      ensures SinglePass.Ready(fibers, tasks, mem')
      ensures SinglePass.Pass(old(fibers), tasks, SinglePass.Run(AsOption(old(current)), mem, out)) ==
              SinglePass.Pass(fibers, tasks, SinglePass.Run(AsOption(current), mem', out'))
    {
      f := fibers[0];
      SinglePass.PassUnroll(fibers, tasks, SinglePass.Run(AsOption(current), mem, out));
      fibers := fibers[1..];
      current := f;
      var turnOut;
      mem', turnOut := RunTurn(f, mem);
      out' := out + turnOut;
    }

    /**
     * The run loop of `do_it()`: while the queue is not empty, pop its head,
     * make it current and run it to `fiber_exit()`. Every entry gets exactly
     * one turn, in queue order, and the result is `SinglePass.Pass`.
     */
    method DoIt(mem: Memory) returns (mem': Memory, out: seq<Event>, ghost turns: seq<Fiber>)
      requires forall f :: f in fibers ==> f.Valid() && PtrValid(f.data, mem)
      modifies this
      ensures SinglePass.Ready(old(fibers), TasksOf(Known(old(fibers))), mem)
      ensures SinglePass.Pass(old(fibers), TasksOf(Known(old(fibers))), SinglePass.Run(AsOption(old(current)), mem, [])) ==
              SinglePass.Run(AsOption(current), mem', out)
      ensures turns == old(fibers) && fibers == []
    {
      ghost var known := Known(fibers);
      ghost var tasks := TasksOf(known);
      RoundRobin.CoversAll(fibers, known);
      assert tasks.Keys == known && RoundRobin.AllValid(tasks, mem);
      mem', out, turns := Drain(known, tasks, mem);
    }

    /** The loop of `DoIt`, with the fibers' fixed state as the map `tasks`. */
    method Drain(ghost known: set<Fiber>, ghost tasks: map<Fiber, Task>, mem: Memory)
      returns (mem': Memory, out: seq<Event>, ghost turns: seq<Fiber>)
      requires tasks == TasksOf(known) && tasks.Keys == known && SinglePass.Ready(fibers, tasks, mem)
      modifies this
      ensures SinglePass.Pass(old(fibers), tasks, SinglePass.Run(AsOption(old(current)), mem, [])) ==
              SinglePass.Run(AsOption(current), mem', out)
      ensures turns == old(fibers) && fibers == []
    {
      ghost var queue := fibers;
      ghost var result := SinglePass.Pass(fibers, tasks, SinglePass.Run(AsOption(current), mem, []));
      mem' := mem;
      out := [];
      turns := [];
      while fibers != []
        invariant turns + fibers == queue
        invariant tasks == TasksOf(known)
        invariant SinglePass.Ready(fibers, tasks, mem')
        invariant SinglePass.Pass(fibers, tasks, SinglePass.Run(AsOption(current), mem', out)) == result
        decreases |fibers|
      {
        var f;
        f, mem', out := Next(known, tasks, mem', out);
        RoundRobin.MoveTurn(turns, f, fibers, queue);
        turns := turns + [f];
      }
    }
  }
}
