# Lightweight fiber scheduler — a Dafny model

The repository implements cooperative user-space threads ("fibers") for
x86-64. A `Fiber` owns a 4096-byte stack, a saved context (instruction and
stack pointer), an optional `int*` to data it shares with other fibers, and a
done flag. A `Scheduler` keeps a FIFO queue of fibers and drains it in
`do_it()`:

- the Task2 scheduler switches to each queued fiber once, and the fiber's
  `fiber_exit()` switches back to the loop;
- the Task3 scheduler adds `yield()`: a fiber that yields goes back to the
  tail of the queue with its context saved, and a fiber that calls
  `fiber_exit()` is marked done and dropped.

The register-level context switch is replaced by its effect on the model: a
fiber body is a script of actions (`Say`, `Show`, `Bump`, `Yield`, `Exit`),
and one turn runs the script from the saved resume point up to the next
`Yield` or `Exit`.

Modules:

- `Scripts` (scripts.dfy): fiber bodies, a fiber as a turn sees it (`Task`:
  body, data pointer, resume point, done flag), and what one turn does.
- `Rotation` (rotation.dfy): the Task3 queue discipline alone. Its state is
  the queue and each fiber's remaining `yield()` calls. FIFO order,
  round-robin fairness, N+1 turns and termination are proved here.
- `RoundRobin` (round_robin.dfy): the Task3 scheduler as a pure state machine
  over whole states (queue, saved contexts, done flags, current fiber, shared
  memory, lines written). It is proved to refine `Rotation` step by step
  (`StepIsTurn`).
- `SinglePass` (single_pass.dfy): the Task2 scheduler as a pure function. It
  is proved to agree with `RoundRobin` when no fiber has a `yield()` left.
- `Fibers` (fiber.dfy): the `Fiber` class, including the aligned initial
  stack pointer `((stack + 4096) & -16) - 128`.
- `Views` (views.dfy): how the schedulers' heap stands for the pure models
  (the fibers a queue names, and their saved contexts and done flags as a
  map).
- `Task3Scheduler`, `Task2Scheduler` (task3_scheduler.dfy,
  task2_scheduler.dfy): the two `Scheduler` classes. Each has a FIFO queue
  field, a current-fiber field and a `while` loop. `DoIt` is proved against
  `RoundRobin.Final` and `Rotation.Order` for Task3, and against
  `SinglePass.Pass` for Task2.
- `Scenarios` (scenarios.dfy): the Task3 and Task2 demo programs, worked
  through the pure models.

Fibers are identified by object identity (`Fiber` references in the classes,
a type parameter `F` in the pure models). A fiber spawned twice therefore
takes two queue entries but has a single saved context and done flag, as the
`Fiber*` entries of the source's deque do. What happens when such a fiber is
resumed after it exited is undefined in the source; see
`RoundRobin.Resume` under "Left out". The fairness and turn-count lemmas
assume the fiber is queued once.

## Model

| member | source | states |
|---|---|---|
| Scripts.NextStop | Task3/scheduler.hpp:24 | a turn ends at the first `yield()` or `fiber_exit()` at or after the resume point, and no earlier action hands control back |
| Scripts.YieldsLeftAtStop | Task3/scheduler.hpp:34-44 | a turn ending in `fiber_exit()` leaves no `yield()` behind it; a turn ending in `yield()` uses up exactly one and leaves a resume point inside the body |
| Scripts.Perform | Task2/main.cpp:11-16 | an action keeps the set of addresses; only an increment through a non-null data pointer changes memory, by +1 at that address; a null pointer is skipped as the `if (shared_data)` tests do |
| Scripts.RunSegment | Task3/scheduler.hpp:24 | one turn stops at `NextStop`, keeps the set of addresses and writes at most one line per action it runs |
| Scripts.RunOnAgrees | Task3/scheduler.hpp:24 | running the body action by action while appending to the lines already written ends where the turn ends, with the same memory and the same lines after the earlier ones |
| Rotation.Turn | Task3/scheduler.hpp:19-29 | one iteration pops the head; a fiber with no `yield()` left is dropped; any other fiber goes back to the tail with one `yield()` fewer |
| Rotation.TurnKeepsOthers | Task3/scheduler.hpp:19-29 | a turn changes the remaining `yield()` calls of the popped fiber only |
| Rotation.TurnShrinks | Task3/scheduler.hpp:18-30 | every iteration strictly decreases the queue length plus the remaining yields of the queued entries, so `do_it` terminates for bodies that reach `fiber_exit()` after finitely many `yield()` calls |
| Rotation.FifoRound | Task3/scheduler.hpp:18-29 | FIFO: the next turns go to the queued entries in queue order |
| Rotation.RoundRobinTurn | Task3/scheduler.hpp:26-29 | a fiber that yields gets its next turn right after every other queued entry has had one |
| Rotation.UnqueuedNeverRuns | Task3/scheduler.hpp:19-29 | a fiber with no queue entry never gets a turn |
| Rotation.TurnCount | Task3/scheduler.hpp:16-44 | a fiber queued once that still makes N `yield()` calls gets exactly N+1 turns; a fiber not queued gets none |
| Rotation.TurnKeepsDistinct | Task3/scheduler.hpp:19-29 | a queue without duplicates stays without duplicates, because a fiber is re-appended only after it was popped |
| Rotation.TurnsOnOrder | Task3/scheduler.hpp:18-30 | after n iterations the remaining turns are the turn order minus its first n turns |
| Rotation.HeadReturns | Task3/scheduler.hpp:26-29 | in a queue without duplicates, the head fiber either never runs again (when it exits now) or runs again exactly after the rest of the queue |
| Rotation.HeadFairness | Task3/scheduler.hpp:16-31 | in a queue without duplicates, between the head fiber's turn and its next turn, no fiber runs twice |
| Rotation.Fairness | Task3/scheduler.hpp:16-31 | with no fiber queued twice, between two consecutive turns of one fiber every other fiber gets at most one turn |
| RoundRobin.Resume | Task3/scheduler.hpp:24-44 | a turn leaves the fiber done exactly when it had no `yield()` left; a done fiber keeps its saved context; a yielding fiber resumes with one `yield()` fewer; body and data pointer never change |
| RoundRobin.Step | Task3/scheduler.hpp:19-29 | an iteration keeps the state valid, keeps the set of fibers and makes the popped fiber current |
| RoundRobin.RequeueIsTurn | Task3/scheduler.hpp:26-29 | re-appending exactly the fibers that are not done is a `Rotation.Turn` |
| RoundRobin.StepIsTurn | Task3/scheduler.hpp:19-29 | every iteration of the full state is one `Rotation.Turn` of its queue and remaining yields |
| RoundRobin.StepShrinks | Task3/scheduler.hpp:18-30 | every iteration decreases the termination measure |
| RoundRobin.StepFrame | Task3/scheduler.hpp:19-29 | an iteration touches only the popped fiber, never clears a done flag, and keeps every body and data pointer |
| RoundRobin.Final | Task3/scheduler.hpp:16-31 | `do_it` returns with an empty queue and the same fibers, in a valid state |
| RoundRobin.LoopStep | Task3/scheduler.hpp:18-30 | an iteration keeps the loop's eventual result and moves the head fiber from the remaining turns to the turns given |
| RoundRobin.FinalStep | Task3/scheduler.hpp:18-30 | the run loop's result is the result from the state after one iteration |
| RoundRobin.OrderStep | Task3/scheduler.hpp:19-24 | the first turn goes to the head fiber, and the remaining turns are the order from the next state |
| RoundRobin.StepQueue | Task3/scheduler.hpp:26-29 | after its turn the popped fiber is appended at the tail iff it is not done; a done fiber is never put back |
| RoundRobin.FinalKeepsDone | Task3/fiber.hpp:31-33 | no done flag is ever reset to false |
| RoundRobin.FinalAllDone | Task3/scheduler.hpp:16-31 | when `do_it` returns, every fiber that was queued is done |
| RoundRobin.FinalCurrent | Task3/scheduler.hpp:21-31 | `current_fiber_` is never cleared: `do_it` leaves it at the fiber that had the last turn, or untouched when the queue was empty |
| SinglePass.Pass | Task2/scheduler.hpp:15-23 | the pass keeps the set of addresses, leaves the last queued fiber current (or the old current fiber when the queue is empty), and only appends lines |
| SinglePass.PassUnroll | Task2/scheduler.hpp:18-21 | the first iteration runs the head entry from its saved context with it current, then the pass goes on over the rest |
| SinglePass.PassAppend | Task2/scheduler.hpp:10-23 | a pass over a queue `q1 + q2` is a pass over `q1` followed by a pass over `q2`, so each entry gets one turn in FIFO order |
| SinglePass.PassIgnoresDone | Task2/scheduler.hpp:17-22 | the Task2 loop never reads a done flag |
| SinglePass.StepWithoutYield | Task3/scheduler.hpp:19-29 | a Task3 iteration of a fiber with no `yield()` left is a Task2 iteration that also marks the fiber done and does not re-append it |
| SinglePass.NoYieldAgrees | Task2/scheduler.hpp:15-23 | when no fiber has a `yield()` left, Task3's `do_it` ends with the same memory, lines and current fiber as Task2's single pass |
| Fibers.AlignDown | Task3/fiber.hpp:12 | `x & -16` on a 64-bit address is `x` rounded down to a multiple of 16 |
| Fibers.InitialStackPointer | Task3/fiber.hpp:11-12 | the initial stack pointer is 16-byte aligned, lies between `top - 143` and `top - 128`, and is inside the stack buffer |
| Fibers.Fiber.constructor | Task3/fiber.hpp:9-15 | a new fiber keeps its function and data pointer, is not done, and its context starts the function on the aligned stack |
| Fibers.Fiber.GetContext | Task3/fiber.hpp:21-23 | the saved context of a valid fiber resumes inside its body |
| Fibers.Fiber.GetData | Task3/fiber.hpp:26-28 | always the pointer given at construction |
| Fibers.Fiber.IsDone | Task3/fiber.hpp:36-38 | reads the done flag and changes nothing |
| Fibers.Fiber.MarkDone | Task3/fiber.hpp:31-33 | sets the done flag and changes no other field (so it is idempotent); called, as from `fiber_exit()`, on a valid fiber with no `yield()` ahead, it keeps the fiber valid |
| Fibers.Fiber.SaveContext | Task3/scheduler.hpp:43 | a switch away from the fiber overwrites its saved context and nothing else; a resume point inside the body keeps the fiber valid |
| Task3Scheduler.Scheduler.constructor | Task3/scheduler.hpp:52-54 | a new scheduler has an empty queue and no current fiber |
| Task3Scheduler.Scheduler.Spawn | Task3/scheduler.hpp:11-13 | appends exactly the given fiber at the tail; the earlier entries, the current fiber and every fiber are untouched |
| Task3Scheduler.Scheduler.GetData | Task3/scheduler.hpp:47-49 | null when no fiber is current, otherwise the current fiber's data pointer |
| Task3Scheduler.Scheduler.Yield | Task3/scheduler.hpp:41-44 | needs a current, valid fiber and a resume point inside its body; saves that resume point, leaves the done flag unchanged and keeps the fiber valid |
| Task3Scheduler.Scheduler.FiberExit | Task3/scheduler.hpp:34-38 | needs a current, valid fiber that made no `yield()` since its saved context; marks it done, saves no context and keeps the fiber valid |
| Task3Scheduler.Scheduler.RunBody | Task3/scheduler.hpp:24 | the loop over the body, with `get_data()` answered by the scheduler, stops where `Scripts.RunSegment` stops, with the same memory and lines |
| Task3Scheduler.Scheduler.RunTurn | Task3/scheduler.hpp:24-44 | a turn computes exactly `RoundRobin.Resume`: the same new context, done flag, memory and lines; of all known fibers only the one that ran changes |
| Task3Scheduler.Scheduler.Iterate | Task3/scheduler.hpp:19-29 | one iteration on the heap is one `RoundRobin.Step` of the state the heap stands for |
| Task3Scheduler.Scheduler.DoIt | Task3/scheduler.hpp:16-31 | `do_it` leaves the heap in `RoundRobin.Final` of the starting state, gives the turns in `Rotation.Order`, and ends with an empty queue |
| Task3Scheduler.Scheduler.Drain | Task3/scheduler.hpp:18-30 | the loop ends in the final state of the pure model and gives its turns in the order of `Rotation.Order` |
| Task2Scheduler.Scheduler.constructor | Task2/scheduler.hpp:36-38 | a new scheduler has an empty queue and no current fiber |
| Task2Scheduler.Scheduler.Spawn | Task2/scheduler.hpp:10-12 | appends exactly the given fiber at the tail and changes nothing else |
| Task2Scheduler.Scheduler.GetData | Task2/scheduler.hpp:31-33 | null when no fiber has been made current, otherwise that fiber's data pointer |
| Task2Scheduler.Scheduler.RunTurn | Task2/scheduler.hpp:21-28 | the switch into the fiber runs its body from the saved context up to `fiber_exit()`, which switches back; no fiber and no scheduler field changes |
| Task2Scheduler.Scheduler.Next | Task2/scheduler.hpp:18-21 | one iteration pops the head, makes exactly that fiber current, and advances the pass by that fiber's turn |
| Task2Scheduler.Scheduler.DoIt | Task2/scheduler.hpp:15-23 | every queued fiber gets exactly one turn, in FIFO order; nothing is re-appended; the queue ends empty; the result is `SinglePass.Pass` |
| Task2Scheduler.Scheduler.Drain | Task2/scheduler.hpp:17-22 | the loop computes `SinglePass.Pass` over the queue it started with, with one turn per entry |
| Scenarios.YieldsOfDemo | Task3/main.cpp:9-19 | fiber 1 of the Task3 demo makes one `yield()` call, and fiber 2 makes none |
| Scenarios.Task3Rotation | Task3/main.cpp:9-38 | with fiber 1 yielding once and fiber 2 not yielding, the turns go to 1, 2, 1 |
| Scenarios.Task3Turn1 | Task3/main.cpp:9-11 | fiber 1's first turn writes "fiber 1 before yield" and re-queues it behind fiber 2 |
| Scenarios.Task3Turn2 | Task3/main.cpp:17-19 | fiber 2's turn writes "fiber 2 started" and marks it done |
| Scenarios.Task3Turn3 | Task3/main.cpp:11-13 | fiber 1 resumes after its `yield()`, writes "fiber 1 after yield" and is marked done |
| Scenarios.Task3Demo | Task3/main.cpp:22-38 | the demo ends with the three lines in that order, both fibers done and fiber 1 current |
| Scenarios.Task3DemoOrder | Task3/main.cpp:22-38 | the demo's turn order is fiber 1, fiber 2, fiber 1 |
| Scenarios.IncrementerTurn | Task2/main.cpp:10-18 | fiber 1 sees the shared value 10, raises it to 11 and reports 11 |
| Scenarios.ReaderTurn | Task2/main.cpp:22-28 | fiber 2 reports the shared value it finds |
| Scenarios.Task2Demo | Task2/main.cpp:32-51 | with shared value 10, fiber 1 sees 10 and writes 11, fiber 2 then sees 11, and fiber 2 is current at the end |

## Left out

- The context primitives `get_context`, `set_context`, `swap_context` and the `Context` struct are not part of this model. A switch into a fiber is modelled as running its script to the next stop, and a switch back as the end of that turn.
- The saved stack pointer after a `yield()` is not tracked: `Yield` keeps the old `rsp` and records only the resume point.
- The `std::cout` lines the schedulers print ("Scheduler: Running fiber" and the others) are left out: they are I/O with no effect on the schedule. The lines fiber bodies write are modelled, as `Event`s threaded through the turns.
- `new char[4096]` and `delete[]` are left out: the stack is an abstract base address passed to the constructor, and the destructor is not modelled.
- The global `scheduler` and the inline free functions `yield()`, `fiber_exit()` and `get_data()` only forward to the scheduler's methods; the model calls the methods directly.
- Task2/fiber.hpp is not part of this model. The model's Task2 scheduler uses `Fibers.Fiber` (Task3/fiber.hpp) instead; Task2/scheduler.hpp calls only `get_context()` and `get_data()` of its own `Fiber`.
- Task2's `fiber_exit()` only switches back to the run loop; it has no member of its own and is modelled as the end of `Task2Scheduler.Scheduler.RunTurn`.
- Function pointers are not executed: a fiber body is a script, and a body that returns without calling `fiber_exit()` (undefined in the source) is excluded by `Scripts.WellFormed`.
- Scripts.WellFormed: a body is a fixed, finite script whose number of `yield()` calls does not depend on memory; a body that yields forever (`for (;;) yield();`) or until another fiber changes the shared int cannot be written. Termination of `do_it` (`Rotation.TurnShrinks`, `RoundRobin.StepShrinks`) and `Rotation.TurnCount` are proved only for such bodies; in the source `do_it` returns only if every queued fiber eventually calls `fiber_exit()`.
- Task3Scheduler.Scheduler.Spawn and Task2Scheduler.Scheduler.Spawn: take a non-null `Fiber`; `spawn(nullptr)`, which the source accepts and later dereferences, is not modelled.
- The memory the shared `int*` pointers reach is an explicit map passed into `DoIt` and returned from it; `int` overflow on the increment is not modelled.
- RoundRobin.Resume: a fiber queued twice that yields and later exits is resumed by its remaining queue entry from the context its last `yield()` saved. By then `fiber_exit()` has reused that part of its stack, so the source's behaviour is undefined. The model re-runs the script from the saved resume point up to the next stop. A done fiber that never yielded restarts from its initial context, which is well defined in the source and is what the model does.
- Scripts.Action: a fiber body cannot call `spawn()` or `do_it()` on the global scheduler. Only spawns made before `do_it()` are modelled, and the FIFO, fairness and turn-count lemmas speak about a queue that grows only by re-appending yielding fibers. Spawning during a run and re-entering `do_it()` from a fiber are not captured.
- Fibers.Fiber.constructor: takes the data pointer as a required argument; the default `nullptr` of the C++ constructor is the argument `Null`.
- Task1/main.cpp is not modelled; its stack arithmetic is the same as `Fibers.InitialStackPointer`.
- Rotation.Fairness: states its promise only for a queue without duplicates; a fiber spawned twice is modelled, but this lemma says nothing about it.
- Rotation.TurnCount: states the N+1 count only for a fiber queued once; a fiber spawned twice is modelled, but this lemma says nothing about its count.
- Task2Scheduler.Scheduler.RunTurn: ends a turn at the first `Yield` or `Exit` of the script; Task2 has no `yield()`, so a Task2 body has only `Exit` as a stop.
