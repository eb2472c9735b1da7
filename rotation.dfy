/**
 * The queue discipline of the Task3 scheduler, stripped of everything but
 * what decides the order of turns: the ready queue and, for each fiber, the
 * number of `yield()` calls it still makes before `fiber_exit()`.
 *
 * A turn pops the head entry. A fiber with no `yield()` left runs to
 * `fiber_exit()` and is not queued again; any other fiber uses up one
 * `yield()` and goes back to the tail.
 */
module Rotation {

  /** The ready queue and the `yield()` calls each fiber has left. */
  datatype Ready<F> = Ready(queue: seq<F>, left: map<F, nat>)

  /** The `yield()` calls `f` has left; a fiber the map does not know has none. */
  function YieldsOf<F>(w: map<F, nat>, f: F): nat {
    if f in w then w[f] else 0
  }

  /** One iteration of the run loop. */
  function Turn<F>(r: Ready<F>): (r': Ready<F>)
    requires r.queue != []
    ensures YieldsOf(r.left, r.queue[0]) == 0 ==> r'.queue == r.queue[1..]
    ensures YieldsOf(r.left, r.queue[0]) > 0 ==> r'.queue == r.queue[1..] + [r.queue[0]]
    ensures YieldsOf(r.left, r.queue[0]) > 0 ==>
              YieldsOf(r'.left, r.queue[0]) + 1 == YieldsOf(r.left, r.queue[0])
  {
    var f := r.queue[0];
    var y := YieldsOf(r.left, f);
    if y == 0 then Ready(r.queue[1..], r.left)
    else Ready(r.queue[1..] + [f], r.left[f := y - 1])
  }

  /** A turn changes the remaining `yield()` calls of the popped fiber only. */
  lemma TurnKeepsOthers<F>(r: Ready<F>)
    requires r.queue != []
    ensures forall g :: g != r.queue[0] ==> YieldsOf(Turn(r).left, g) == YieldsOf(r.left, g)
  {
  }

  /** The turns the queued entries still take (each entry as if it were alone). */
  function Pending<F>(q: seq<F>, w: map<F, nat>): nat {
    if q == [] then 0 else YieldsOf(w, q[0]) + 1 + Pending(q[1..], w)
  }

  lemma {:induction false} PendingAppend<F>(q: seq<F>, f: F, w: map<F, nat>)
    ensures Pending(q + [f], w) == Pending(q, w) + YieldsOf(w, f) + 1
  {
    if q != [] {
      assert (q + [f])[1..] == q[1..] + [f];
      PendingAppend(q[1..], f, w);
    }
  }

  /** Using up a yield never makes the queued entries need more turns. */
  lemma {:induction false} PendingUsesUp<F>(q: seq<F>, w: map<F, nat>, f: F)
    requires YieldsOf(w, f) > 0
    ensures Pending(q, w[f := YieldsOf(w, f) - 1]) <= Pending(q, w)
  {
    if q != [] {
      PendingUsesUp(q[1..], w, f);
    }
  }

  /** Every turn brings the run loop closer to its end. */
  lemma TurnShrinks<F>(r: Ready<F>)
    requires r.queue != []
    ensures Pending(Turn(r).queue, Turn(r).left) < Pending(r.queue, r.left)
  {
    var f := r.queue[0];
    var y := YieldsOf(r.left, f);
    if y > 0 {
      var w := r.left[f := y - 1];
      PendingUsesUp(r.queue[1..], r.left, f);
      PendingAppend(r.queue[1..], f, w);
    }
  }

  /** The fibers in the order the run loop gives them their turns. */
  function Order<F>(r: Ready<F>): seq<F>
    decreases Pending(r.queue, r.left)
  {
    if r.queue == [] then []
    else
      TurnShrinks(r);
      [r.queue[0]] + Order(Turn(r))
  }

  /** FIFO: the next |queue| turns go to the queued entries, in queue order. */
  lemma {:induction false} FifoRound<F>(r: Ready<F>)
    ensures |Order(r)| >= |r.queue| && Order(r)[..|r.queue|] == r.queue
    decreases Pending(r.queue, r.left)
  {
    if r.queue != [] {
      var r1 := Turn(r);
      TurnShrinks(r);
      FifoRound(r1);
      var rest := r.queue[1..];
      assert r1.queue[..|rest|] == rest;
      assert Order(r1)[..|rest|] == Order(r1)[..|r1.queue|][..|rest|];
      assert Order(r) == [r.queue[0]] + Order(r1);
      assert Order(r)[..|r.queue|] == [r.queue[0]] + Order(r1)[..|rest|];
      assert r.queue == [r.queue[0]] + rest;
    }
  }

  /**
   * Round robin: a fiber that yields goes back behind every other queued
   * entry, so its next turn comes right after each of them has had one.
   */
  lemma RoundRobinTurn<F>(r: Ready<F>)
    requires r.queue != [] && YieldsOf(r.left, r.queue[0]) > 0
    ensures |Order(r)| >= |r.queue| + 1
    ensures Order(r)[..|r.queue| + 1] == r.queue + [r.queue[0]]
  {
    var r1 := Turn(r);
    TurnShrinks(r);
    FifoRound(r1);
    assert Order(r) == [r.queue[0]] + Order(r1);
    assert r.queue + [r.queue[0]] == [r.queue[0]] + r1.queue;
  }

  /** A fiber with no queue entry never gets another turn. */
  lemma {:induction false} UnqueuedNeverRuns<F>(r: Ready<F>, f: F)
    requires f !in r.queue
    ensures f !in Order(r)
    decreases Pending(r.queue, r.left)
  {
    if r.queue != [] {
      var r1 := Turn(r);
      TurnShrinks(r);
      assert f !in r1.queue;
      UnqueuedNeverRuns(r1, f);
    }
  }

  /**
   * A fiber with one queue entry gets one turn per remaining `yield()` plus
   * one; in particular a fresh fiber that yields N times gets N + 1 turns.
   */
  lemma {:induction false} TurnCount<F>(r: Ready<F>, f: F)
    requires multiset(r.queue)[f] <= 1
    ensures multiset(Order(r))[f] == if f in r.queue then YieldsOf(r.left, f) + 1 else 0
    decreases Pending(r.queue, r.left)
  {
    if r.queue != [] {
      var r1 := Turn(r);
      var g := r.queue[0];
      var rest := r.queue[1..];
      TurnShrinks(r);
      TurnKeepsOthers(r);
      assert r.queue == [g] + rest;
      assert multiset(r.queue) == multiset{g} + multiset(rest);
      assert multiset(r1.queue)[f] <= 1;
      TurnCount(r1, f);
      assert multiset(Order(r)) == multiset{g} + multiset(Order(r1));
      if g == f {
        assert f !in rest;
      } else {
        assert f in r1.queue <==> f in r.queue;
      }
    }
  }

  /** No fiber occupies two queue entries. */
  predicate Distinct<F(==)>(q: seq<F>) {
    forall i, j :: 0 <= i < j < |q| ==> q[i] != q[j]
  }

  /** A duplicate-free queue stays so: a fiber goes back only after it was popped. */
  lemma TurnKeepsDistinct<F>(r: Ready<F>)
    requires r.queue != [] && Distinct(r.queue)
    ensures Distinct(Turn(r).queue)
  {
    assert r.queue == [r.queue[0]] + r.queue[1..];
    assert r.queue[0] !in r.queue[1..];
  }

  /** The queue state after `n` iterations of the run loop. */
  function Turns<F>(r: Ready<F>, n: nat): Ready<F>
    decreases n
  {
    if n == 0 || r.queue == [] then r else Turns(Turn(r), n - 1)
  }

  /** After `n` iterations the rest of the run is the rest of the turn order. */
  lemma {:induction false} TurnsOnOrder<F>(r: Ready<F>, n: nat)
    requires n <= |Order(r)|
    ensures Order(Turns(r, n)) == Order(r)[n..]
    ensures Distinct(r.queue) ==> Distinct(Turns(r, n).queue)
    decreases n
  {
    if n > 0 {
      var r1 := Turn(r);
      TurnShrinks(r);
      if Distinct(r.queue) { TurnKeepsDistinct(r); }
      TurnsOnOrder(r1, n - 1);
      assert Order(r)[n..] == Order(r1)[n - 1..];
    }
  }

  /**
   * Where the head fiber's next turn falls in a duplicate-free queue: never,
   * if it exits now; otherwise right after every other entry has had one.
   */
  lemma HeadReturns<F>(r: Ready<F>)
    requires r.queue != [] && Distinct(r.queue)
    ensures YieldsOf(r.left, r.queue[0]) == 0 ==> r.queue[0] !in Order(r)[1..]
    ensures YieldsOf(r.left, r.queue[0]) > 0 ==>
              |Order(r)| > |r.queue| && Order(r)[1..|r.queue|] == r.queue[1..] &&
              Order(r)[|r.queue|] == r.queue[0]
  {
    var f := r.queue[0];
    var r1 := Turn(r);
    TurnShrinks(r);
    assert Order(r)[1..] == Order(r1);
    if YieldsOf(r.left, f) == 0 {
      assert f !in r.queue[1..] by {
        assert r.queue == [f] + r.queue[1..];
      }
      UnqueuedNeverRuns(r1, f);
    } else {
      RoundRobinTurn(r);
      var m := |r.queue|;
      assert Order(r)[1..m] == Order(r)[..m + 1][1..m];
      assert Order(r)[m] == Order(r)[..m + 1][m];
    }
  }

  /** Fairness for the fiber at the head of a duplicate-free queue. */
  lemma HeadFairness<F>(u: Ready<F>, d: nat)
    requires u.queue != [] && Distinct(u.queue)
    requires 0 < d < |Order(u)| && Order(u)[d] == u.queue[0]
    requires forall k :: 0 < k < d ==> Order(u)[k] != u.queue[0]
    ensures forall k, l :: 0 < k < l < d ==> Order(u)[k] != Order(u)[l]
  {
    var T := Order(u);
    var m := |u.queue|;
    HeadReturns(u);
    assert T[1..][d - 1] == T[d];
    if YieldsOf(u.left, u.queue[0]) == 0 {
      assert false;
    } else {
      assert forall k :: 0 < k < m ==> T[k] == T[1..m][k - 1];
      if d < m {
        assert false;
      } else if d > m {
        assert false;
      }
    }
  }

  /**
   * Fairness: when no fiber is queued twice, between two consecutive turns of
   * one fiber every other fiber gets at most one turn.
   */
  lemma Fairness<F>(r: Ready<F>, i: nat, j: nat)
    requires Distinct(r.queue)
    requires i < j < |Order(r)| && Order(r)[i] == Order(r)[j]
    requires forall k :: i < k < j ==> Order(r)[k] != Order(r)[i]
    ensures forall k, l :: i < k < l < j ==> Order(r)[k] != Order(r)[l]
  {
    var T := Order(r);
    TurnsOnOrder(r, i);
    var u := Turns(r, i);
    var U := Order(u);
    assert U == T[i..];
    assert forall k :: i <= k < |T| ==> T[k] == U[k - i];
    FifoRound(u);
    assert u.queue != [] && u.queue[0] == U[0];
    HeadFairness(u, j - i);
  }
}
