/**
 * Fiber bodies. The scheduler never looks inside the function a fiber runs;
 * it only sees where that function hands control back (`yield()` or
 * `fiber_exit()`). A body is therefore modelled as a script of actions, and
 * one turn of a fiber runs its script from the saved resume point up to the
 * next Yield or Exit.
 */
module Scripts {

  datatype Option<T> = None | Some(value: T)

  /** Addresses are unbounded naturals; the stack arithmetic bounds them. */
  type Addr = nat

  /** The process memory reachable through the `int*` shared-data pointers. */
  type Memory = map<Addr, int>

  /** An `int*`: null or the address of an int. */
  datatype IntPtr = Null | At(addr: Addr)

  /** What a fiber body does between two calls into the scheduler. */
  datatype Action =
    | Say(msg: string)    // writes a fixed line to the console
    | Show(caption: string) // writes the int behind get_data(), if it is not null
    | Bump                // increments the int behind get_data(), if it is not null
    | Yield               // calls yield()
    | Exit                // calls fiber_exit()

  /** One line written by a fiber body. */
  datatype Event = Said(msg: string) | Shown(caption: string, value: int)

  /** The actions at which a turn ends and control goes back to the scheduler. */
  predicate IsStop(a: Action) {
    a.Yield? || a.Exit?
  }

  /**
   * A body the scheduler can run: it ends in `fiber_exit()`. Returning from
   * the entry function without it is undefined in the source.
   */
  predicate WellFormed(body: seq<Action>) {
    |body| > 0 && body[|body| - 1].Exit?
  }

  /** A shared-data pointer that is null or points at an int of `mem`. */
  predicate PtrValid(p: IntPtr, mem: Memory) {
    p.At? ==> p.addr in mem
  }

  /** The index of the first Yield or Exit at or after `i`: where the turn ends. */
  function NextStop(body: seq<Action>, i: nat): (j: nat)
    requires WellFormed(body) && i < |body|
    ensures i <= j < |body| && IsStop(body[j])
    ensures forall k :: i <= k < j ==> !IsStop(body[k])
    decreases |body| - i
  {
    if IsStop(body[i]) then i else NextStop(body, i + 1)
  }

  /**
   * The number of `yield()` calls a body still makes from position `i`
   * before it reaches `fiber_exit()`.
   */
  function YieldsLeft(body: seq<Action>, i: nat): nat
    decreases |body| - i
  {
    if i >= |body| || body[i].Exit? then 0
    else if body[i].Yield? then 1 + YieldsLeft(body, i + 1)
    else YieldsLeft(body, i + 1)
  }

  /** A turn that ends at an Exit leaves no yield behind it; one that ends at a Yield uses up one. */
  lemma {:induction false} YieldsLeftAtStop(body: seq<Action>, i: nat)
    requires WellFormed(body) && i < |body|
    ensures body[NextStop(body, i)].Exit? ==> YieldsLeft(body, i) == 0
    ensures body[NextStop(body, i)].Yield? ==>
              NextStop(body, i) + 1 < |body| &&
              YieldsLeft(body, i) == 1 + YieldsLeft(body, NextStop(body, i) + 1)
    decreases |body| - i
  {
    if !IsStop(body[i]) {
      YieldsLeftAtStop(body, i + 1);
    }
  }

  /**
   * The scheduler's view of one fiber: its body, its shared-data pointer, the
   * position its saved context resumes at, and its done flag.
   */
  datatype Task = Task(body: seq<Action>, data: IntPtr, rip: nat, done: bool)

  /**
   * A fiber the scheduler can resume: its body ends in `fiber_exit()`, its
   * saved context points into the body, and a fiber already marked done would
   * reach `fiber_exit()` again before any `yield()`.
   */
  predicate TaskValid(t: Task) {
    WellFormed(t.body) && t.rip < |t.body| && (t.done ==> YieldsLeft(t.body, t.rip) == 0)
  }

  /** The effect of one non-stopping action, run with `data` as get_data(). */
  function Perform(a: Action, data: IntPtr, mem: Memory): (r: (Memory, seq<Event>))
    requires PtrValid(data, mem)
    ensures r.0.Keys == mem.Keys
    ensures forall p :: p in mem && !(a.Bump? && data == At(p)) ==> r.0[p] == mem[p]
    ensures a.Bump? && data.At? ==> r.0[data.addr] == mem[data.addr] + 1
    ensures |r.1| <= 1
  {
    match a
    case Say(msg) => (mem, [Said(msg)])
    case Show(caption) => if data.At? then (mem, [Shown(caption, mem[data.addr])]) else (mem, [])
    case Bump => if data.At? then (mem[data.addr := mem[data.addr] + 1], []) else (mem, [])
    case _ => (mem, [])
  }

  /** Where a turn stopped, the memory it left and the lines it wrote. */
  datatype Segment = Segment(stop: nat, mem: Memory, out: seq<Event>)

  /** One turn: run `body` from `i` up to its next Yield or Exit. */
  function RunSegment(body: seq<Action>, i: nat, data: IntPtr, mem: Memory): (r: Segment)
    requires WellFormed(body) && i < |body| && PtrValid(data, mem)
    ensures r.stop == NextStop(body, i)
    ensures r.mem.Keys == mem.Keys
    ensures |r.out| <= r.stop - i
    decreases |body| - i
  {
    if IsStop(body[i]) then Segment(i, mem, [])
    else
      var (mem1, out1) := Perform(body[i], data, mem);
      var rest := RunSegment(body, i + 1, data, mem1);
      Segment(rest.stop, rest.mem, out1 + rest.out)
  }

  /**
   * The rest of a turn as a loop over the body computes it, from position `i`
   * with `out` already written.
   */
  function RunOn(body: seq<Action>, i: nat, data: IntPtr, mem: Memory, out: seq<Event>): (r: Segment)
    requires WellFormed(body) && i < |body| && PtrValid(data, mem)
    ensures r.stop == NextStop(body, i)
    decreases |body| - i
  {
    if IsStop(body[i]) then Segment(i, mem, out)
    else
      var step := Perform(body[i], data, mem);
      RunOn(body, i + 1, data, step.0, out + step.1)
  }

  /** The loop form of a turn writes what came before followed by the turn's own lines. */
  lemma {:induction false} RunOnAgrees(body: seq<Action>, i: nat, data: IntPtr, mem: Memory, out: seq<Event>)
    requires WellFormed(body) && i < |body| && PtrValid(data, mem)
    ensures var seg := RunSegment(body, i, data, mem);
            RunOn(body, i, data, mem, out) == Segment(seg.stop, seg.mem, out + seg.out)
    decreases |body| - i
  {
    if !IsStop(body[i]) {
      var step := Perform(body[i], data, mem);
      var rest := RunSegment(body, i + 1, data, step.0);
      RunOnAgrees(body, i + 1, data, step.0, out + step.1);
      assert (out + step.1) + rest.out == out + (step.1 + rest.out);
    }
  }
}
