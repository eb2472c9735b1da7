/**
 * How the schedulers' heap stands for the pure models: the fibers a queue
 * names, the current-fiber pointer as an option, and the saved contexts and
 * done flags of a set of fibers as a map.
 */
module Views {
  import opened Scripts
  import opened Fibers

  /** The fibers a queue names. */
  ghost function Known(q: seq<Fiber>): set<Fiber> {
    set f | f in q
  }

  /** A possibly null fiber pointer as an option. */
  function AsOption(f: Fiber?): (o: Option<Fiber>)
    ensures o.None? <==> f == null
  {
    if f == null then None else var g: Fiber := f; Some(g)
  }

  /** The scheduler's view of the fibers in `known`: saved contexts and done flags. */
  ghost function TasksOf(known: set<Fiber>): map<Fiber, Task>
    reads known
  {
    map f | f in known :: f.AsTask()
  }
}
