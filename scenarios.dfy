/**
 * The two demo programs, run through the pure models: the Task3 program whose
 * first fiber yields once, and the Task2 program whose fibers share an int.
 */
module Scenarios {
  import opened Scripts
  import Rotation
  import RoundRobin
  import SinglePass

  /** Task3's first fiber: a line, `yield()`, another line, `fiber_exit()`. */
  const YieldingBody: seq<Action> :=
    [Say("fiber 1 before yield"), Yield, Say("fiber 1 after yield"), Exit]
  /** Task3's second fiber: a line and `fiber_exit()`. */
  const PlainBody: seq<Action> := [Say("fiber 2 started"), Exit]

  /** Both Task3 fibers spawned, in order, before `do_it()`. */
  function Task3Start(): RoundRobin.State<int> {
    RoundRobin.State([1, 2],
                     map[1 := Task(YieldingBody, Null, 0, false),
                         2 := Task(PlainBody, Null, 0, false)],
                     None, map[], [])
  }

  /** What each Task3 fiber has left to do after each of its turns. */
  function Fiber1(rip: nat, done: bool): Task {
    Task(YieldingBody, Null, rip, done)
  }

  function Fiber2(done: bool): Task {
    Task(PlainBody, Null, 0, done)
  }

  lemma YieldsOfDemo()
    ensures RoundRobin.Left(Fiber1(0, false)) == 1
    ensures RoundRobin.Left(Fiber1(2, false)) == 0
    ensures RoundRobin.Left(Fiber2(false)) == 0
  {
    assert YieldsLeft(YieldingBody, 0) == YieldsLeft(YieldingBody, 1);
    assert YieldsLeft(YieldingBody, 2) == YieldsLeft(YieldingBody, 3);
    assert YieldsLeft(PlainBody, 0) == YieldsLeft(PlainBody, 1);
  }

  /** The queue discipline alone: fiber 1 has one `yield()` left and fiber 2 none. */
  lemma Task3Rotation()
    ensures Rotation.Order(Rotation.Ready([1, 2], map[1 := 1, 2 := 0])) == [1, 2, 1]
  {
    var r0 := Rotation.Ready([1, 2], map[1 := 1, 2 := 0]);
    var r1 := Rotation.Turn(r0);
    assert r1 == Rotation.Ready([2, 1], map[1 := 0, 2 := 0]);
    var r2 := Rotation.Turn(r1);
    assert r2 == Rotation.Ready([1], map[1 := 0, 2 := 0]);
    var r3 := Rotation.Turn(r2);
    assert r3.queue == [];
    Rotation.TurnShrinks(r0);
    Rotation.TurnShrinks(r1);
    Rotation.TurnShrinks(r2);
  }

  /** The state after fiber 1's first turn. */
  function Task3After1(): RoundRobin.State<int> {
    RoundRobin.State([2, 1], map[1 := Fiber1(2, false), 2 := Fiber2(false)], Some(1), map[],
                     [Said("fiber 1 before yield")])
  }

  /** The state after fiber 2's turn. */
  function Task3After2(): RoundRobin.State<int> {
    RoundRobin.State([1], map[1 := Fiber1(2, false), 2 := Fiber2(true)], Some(2), map[],
                     [Said("fiber 1 before yield"), Said("fiber 2 started")])
  }

  /** The state after fiber 1's second turn: the queue is empty. */
  function Task3After3(): RoundRobin.State<int> {
    RoundRobin.State([], map[1 := Fiber1(2, true), 2 := Fiber2(true)], Some(1), map[],
                     [Said("fiber 1 before yield"), Said("fiber 2 started"), Said("fiber 1 after yield")])
  }

  /** Fiber 1's first turn: one line, then `yield()` saves the context after it. */
  lemma Task3Turn1()
    ensures RoundRobin.Valid(Task3Start()) && RoundRobin.Step(Task3Start()) == Task3After1()
  {
    YieldsOfDemo();
    assert RunSegment(YieldingBody, 1, Null, map[]) == Segment(1, map[], []);
    assert RunSegment(YieldingBody, 0, Null, map[]) == Segment(1, map[], [Said("fiber 1 before yield")]);
  }

  /** Fiber 2's only turn: one line, then `fiber_exit()`. */
  lemma Task3Turn2()
    ensures RoundRobin.Valid(Task3After1()) && RoundRobin.Step(Task3After1()) == Task3After2()
  {
    YieldsOfDemo();
    assert RunSegment(PlainBody, 1, Null, map[]) == Segment(1, map[], []);
    assert RunSegment(PlainBody, 0, Null, map[]) == Segment(1, map[], [Said("fiber 2 started")]);
  }

  /** Fiber 1 resumes after its `yield()`: one line, then `fiber_exit()`. */
  lemma Task3Turn3()
    ensures RoundRobin.Valid(Task3After2()) && RoundRobin.Step(Task3After2()) == Task3After3()
  {
    YieldsOfDemo();
    assert RunSegment(YieldingBody, 3, Null, map[]) == Segment(3, map[], []);
    assert RunSegment(YieldingBody, 2, Null, map[]) == Segment(3, map[], [Said("fiber 1 after yield")]);
  }

  /**
   * Fiber 1 runs up to its `yield()`, fiber 2 runs to its end, and fiber 1
   * resumes after its `yield()`: three lines in that order, both fibers done,
   * and fiber 1 current at the end.
   */
  lemma Task3Demo()
    ensures RoundRobin.Valid(Task3Start())
    ensures RoundRobin.Final(Task3Start()) == Task3After3()
  {
    Task3Turn1();
    Task3Turn2();
    Task3Turn3();
    RoundRobin.FinalStep(Task3Start());
    RoundRobin.FinalStep(Task3After1());
    RoundRobin.FinalStep(Task3After2());
  }

  /** The turns go to fiber 1, fiber 2, fiber 1. */
  lemma Task3DemoOrder()
    ensures Rotation.Order(RoundRobin.Abstract(Task3Start())) == [1, 2, 1]
  {
    YieldsOfDemo();
    assert RoundRobin.Abstract(Task3Start()) == Rotation.Ready([1, 2], map[1 := 1, 2 := 0]);
    Task3Rotation();
  }

  /** Task2's first fiber: it reads the shared int, increments it and reads it again. */
  const Incrementer: seq<Action> :=
    [Say("fiber 1 started"), Show("fiber 1: shared data = "), Bump,
     Show("fiber 1: incremented shared data to "), Exit]
  /** Task2's second fiber: it reads the shared int. */
  const Reader: seq<Action> := [Say("fiber 2 started"), Show("fiber 2: shared data = "), Exit]

  /** Both Task2 fibers share the int at address 0. */
  function Task2Tasks(): map<int, Task> {
    map[1 := Task(Incrementer, At(0), 0, false),
        2 := Task(Reader, At(0), 0, false)]
  }

  lemma IncrementerTurn()
    ensures RunSegment(Incrementer, 0, At(0), map[0 := 10]) ==
            Segment(4, map[0 := 11], [Said("fiber 1 started"), Shown("fiber 1: shared data = ", 10),
                                      Shown("fiber 1: incremented shared data to ", 11)])
  {
    assert RunSegment(Incrementer, 4, At(0), map[0 := 11]) == Segment(4, map[0 := 11], []);
    assert RunSegment(Incrementer, 3, At(0), map[0 := 11]) ==
           Segment(4, map[0 := 11], [Shown("fiber 1: incremented shared data to ", 11)]);
    assert RunSegment(Incrementer, 2, At(0), map[0 := 10]) ==
           Segment(4, map[0 := 11], [Shown("fiber 1: incremented shared data to ", 11)]);
    assert RunSegment(Incrementer, 1, At(0), map[0 := 10]) ==
           Segment(4, map[0 := 11], [Shown("fiber 1: shared data = ", 10),
                                     Shown("fiber 1: incremented shared data to ", 11)]);
  }

  lemma ReaderTurn()
    ensures RunSegment(Reader, 0, At(0), map[0 := 11]) ==
            Segment(2, map[0 := 11], [Said("fiber 2 started"), Shown("fiber 2: shared data = ", 11)])
  {
    assert RunSegment(Reader, 2, At(0), map[0 := 11]) == Segment(2, map[0 := 11], []);
    assert RunSegment(Reader, 1, At(0), map[0 := 11]) ==
           Segment(2, map[0 := 11], [Shown("fiber 2: shared data = ", 11)]);
  }

  /**
   * The shared value starts at 10; fiber 1 sees 10 and raises it to 11, and
   * fiber 2, which runs after it, sees 11. Fiber 2 is current at the end.
   */
  lemma Task2Demo()
    ensures SinglePass.Ready([1, 2], Task2Tasks(), map[0 := 10])
    ensures SinglePass.Pass([1, 2], Task2Tasks(), SinglePass.Run(None, map[0 := 10], [])) ==
            SinglePass.Run(Some(2), map[0 := 11],
                           [Said("fiber 1 started"), Shown("fiber 1: shared data = ", 10),
                            Shown("fiber 1: incremented shared data to ", 11),
                            Said("fiber 2 started"), Shown("fiber 2: shared data = ", 11)])
  {
    IncrementerTurn();
    ReaderTurn();
    var tasks := Task2Tasks();
    assert SinglePass.Ready([1, 2], tasks, map[0 := 10]);
    SinglePass.PassUnroll([1, 2], tasks, SinglePass.Run(None, map[0 := 10], []));
    var r1 := SinglePass.Run(Some(1), map[0 := 11],
                             [Said("fiber 1 started"), Shown("fiber 1: shared data = ", 10),
                              Shown("fiber 1: incremented shared data to ", 11)]);
    assert [1, 2][1..] == [2];
    SinglePass.PassUnroll([2], tasks, r1);
    assert [2][1..] == [];
  }
}
