/**
 * The bookkeeping of the solver's Dijkstra search and the facts that make
 * it correct: the cost-so-far map `dist`, the predecessor map `prev`, the
 * priority queue with lazily deleted stale entries, and the states already
 * expanded (a ghost map `order` recording when each was expanded).
 */
module Search {
  import opened Crossing
  import opened MinQueue

  type Dist = map<State, nat>
  type Prev = map<State, (State, seq<nat>)>
  type Queue = seq<Entry<State>>
  type Order = map<State, nat>

  /**
   * The predecessor recorded for `s` is an expanded state from which a legal
   * crossing reaches `s` at exactly the cost `dist` holds for `s`.
   */
  ghost predicate Recorded(times: seq<nat>, maxGroup: int, dist: Dist, prev: Prev, order: Order, s: State)
    requires s in prev && s in dist
  {
    var u := prev[s].0;
    var g := prev[s].1;
    && u in order && u in dist
    && LegalGroup(|times|, maxGroup, u, g)
    && Cross(u, g) == s
    && dist[s] == dist[u] + Duration(times, g)
    && (s in order ==> order[u] < order[s])
  }

  /** The shortest-path tree: `dist` and `prev` agree and lead back to the start. */
  ghost predicate Tree(times: seq<nat>, maxGroup: int, dist: Dist, prev: Prev, order: Order, count: nat)
  {
    var n := |times|;
    && Initial(n) in dist && dist[Initial(n)] == 0 && Initial(n) !in prev
    && (forall s :: s in dist ==> s.mask <= Everyone(n) && (s == Initial(n) || s in prev))
    && (forall s :: s in prev ==> s in dist)
    && (forall s {:trigger Recorded(times, maxGroup, dist, prev, order, s)} ::
          s in prev && s in dist ==> Recorded(times, maxGroup, dist, prev, order, s))
    && (forall s :: s in order ==> s in dist && order[s] < count)
    && Goal !in order
  }

  /**
   * The queue: every entry is at least the best known cost of its state and
   * at least `floor`, the cost last popped; an expanded state has only stale
   * entries left; every other known state has exactly one live entry.
   */
  ghost predicate Frontier(dist: Dist, pq: Queue, order: Order, floor: nat)
  {
    && (forall s :: s in order ==> s in dist && dist[s] <= floor)
    && (forall e :: e in pq ==>
          && e.item in dist && dist[e.item] <= e.cost && floor <= e.cost
          && (e.item in order ==> dist[e.item] < e.cost))
    && (forall s :: s in dist && s !in order ==> multiset(pq)[Entry(dist[s], s)] == 1)
  }

  /** The loop invariant of the search: the tree and the queue are consistent. */
  ghost predicate Searching(times: seq<nat>, maxGroup: int, dist: Dist, prev: Prev, pq: Queue,
                            order: Order, count: nat, floor: nat)
  {
    Tree(times, maxGroup, dist, prev, order, count) && Frontier(dist, pq, order, floor)
  }

  /** The crossing of `g` from `u` has been tried: its end state costs no more than via `u`. */
  ghost predicate Relaxed(times: seq<nat>, maxGroup: int, dist: Dist, u: State, g: seq<nat>)
  {
    u in dist && LegalGroup(|times|, maxGroup, u, g) ==>
      Cross(u, g) in dist && dist[Cross(u, g)] <= dist[u] + Duration(times, g)
  }

  /** Every crossing out of every state of `done` has been tried. */
  ghost predicate RelaxedFrom(times: seq<nat>, maxGroup: int, dist: Dist, done: set<State>)
  {
    forall u, g :: u in done ==> Relaxed(times, maxGroup, dist, u, g)
  }

  /** `dist'` only adds states and lowers costs, and leaves expanded states alone. */
  ghost predicate Lowered(dist: Dist, dist': Dist, order: Order)
  {
    && (forall s :: s in dist ==> s in dist' && dist'[s] <= dist[s])
    && (forall s :: s in order && s in dist ==> dist'[s] == dist[s])
  }

  /** Lowering costs twice is lowering them once. */
  lemma LoweredChains(dist: Dist, mid: Dist, dist': Dist, order: Order)
    requires Lowered(dist, mid, order) && Lowered(mid, dist', order)
    ensures Lowered(dist, dist', order)
  {
  }

  /** The search starts with the start state alone, at cost 0. */
  lemma Launch(times: seq<nat>, maxGroup: int)
    ensures Searching(times, maxGroup, map[Initial(|times|) := 0], map[],
                      [Entry(0, Initial(|times|))], map[], 0, 0)
    ensures RelaxedFrom(times, maxGroup, map[Initial(|times|) := 0], {})
  {
    var start := Initial(|times|);
    var dist: Dist := map[start := 0];
    var pq: Queue := [Entry(0, start)];
    assert multiset(pq)[Entry(dist[start], start)] == 1;
  }

  /** Tried crossings stay tried while costs are only lowered. */
  lemma RelaxedStays(times: seq<nat>, maxGroup: int, dist: Dist, dist': Dist, order: Order, u: State, g: seq<nat>)
    requires Relaxed(times, maxGroup, dist, u, g) && Lowered(dist, dist', order)
    requires u in order && u in dist
    ensures Relaxed(times, maxGroup, dist', u, g)
  {
  }

  /** `RelaxedStays` for a whole set of expanded states. */
  lemma RelaxedFromStays(times: seq<nat>, maxGroup: int, dist: Dist, dist': Dist, order: Order, done: set<State>)
    requires RelaxedFrom(times, maxGroup, dist, done) && Lowered(dist, dist', order)
    requires forall u :: u in done ==> u in order && u in dist
    ensures RelaxedFrom(times, maxGroup, dist', done)
  {
    forall u, g | u in done ensures Relaxed(times, maxGroup, dist', u, g) {
      RelaxedStays(times, maxGroup, dist, dist', order, u, g);
    }
  }

  /**
   * Popping a stale entry (its cost exceeds the best known cost of its
   * state) and skipping it keeps the search consistent.
   */
  lemma PopStale(times: seq<nat>, maxGroup: int, dist: Dist, prev: Prev, pq: Queue, rest: Queue,
                 e: Entry<State>, order: Order, count: nat, floor: nat)
    requires Searching(times, maxGroup, dist, prev, pq, order, count, floor)
    requires multiset(pq) == multiset(rest) + multiset{e}
    requires forall x :: x in pq ==> e.cost <= x.cost
    requires e.item in dist && dist[e.item] < e.cost
    ensures Searching(times, maxGroup, dist, prev, rest, order, count, e.cost)
  {
    assert e in multiset(pq);
    forall x | x in rest ensures x in pq {
      assert x in multiset(rest);
      assert x in multiset(pq);
    }
    forall s | s in dist && s !in order ensures multiset(rest)[Entry(dist[s], s)] == 1 {
      assert Entry(dist[s], s) != e;
    }
  }

  /**
   * Popping a live entry of a state other than the goal: its cost is the
   * state's best cost, the state was not expanded before, and marking it
   * expanded keeps the search consistent.
   */
  lemma PopFresh(times: seq<nat>, maxGroup: int, dist: Dist, prev: Prev, pq: Queue, rest: Queue,
                 e: Entry<State>, order: Order, count: nat, floor: nat)
    requires Searching(times, maxGroup, dist, prev, pq, order, count, floor)
    requires multiset(pq) == multiset(rest) + multiset{e}
    requires forall x :: x in pq ==> e.cost <= x.cost
    requires !(e.item in dist && dist[e.item] < e.cost) && e.item != Goal
    requires RelaxedFrom(times, maxGroup, dist, order.Keys)
    ensures e.item in dist && dist[e.item] == e.cost && e.item !in order
    ensures Searching(times, maxGroup, dist, prev, rest, order[e.item := count], count + 1, e.cost)
    ensures RelaxedFrom(times, maxGroup, dist, order[e.item := count].Keys - {e.item})
  {
    var x := e.item;
    assert order[x := count].Keys - {x} == order.Keys;
    assert e in multiset(pq);
    assert e in pq;
    assert e == Entry(dist[x], x);
    TreeGrows(times, maxGroup, dist, prev, order, count, x);
    FrontierAfterPop(dist, pq, rest, e, order, count, floor);
  }

  /** Marking a known state other than the goal as expanded keeps the tree consistent. */
  lemma TreeGrows(times: seq<nat>, maxGroup: int, dist: Dist, prev: Prev, order: Order, count: nat, x: State)
    requires Tree(times, maxGroup, dist, prev, order, count)
    requires x in dist && x !in order && x != Goal
    ensures Tree(times, maxGroup, dist, prev, order[x := count], count + 1)
  {
    var order' := order[x := count];
    forall s | s in prev ensures Recorded(times, maxGroup, dist, prev, order', s) {
      RecordedGrows(times, maxGroup, dist, prev, order, count, x, s);
    }
    forall s | s in order' ensures s in dist && order'[s] < count + 1 {
      if s != x {
        assert s in order;
      }
    }
  }

  /** A recorded predecessor stays recorded when a further state is expanded last. */
  lemma RecordedGrows(times: seq<nat>, maxGroup: int, dist: Dist, prev: Prev, order: Order, count: nat, x: State, s: State)
    requires s in prev && s in dist && Recorded(times, maxGroup, dist, prev, order, s)
    requires forall y :: y in order ==> order[y] < count
    requires x !in order
    ensures Recorded(times, maxGroup, dist, prev, order[x := count], s)
  {
    var u := prev[s].0;
    assert u in order && u != x;
  }

  /** Removing the live entry of an unexpanded state and marking it expanded. */
  lemma FrontierAfterPop(dist: Dist, pq: Queue, rest: Queue, e: Entry<State>, order: Order, count: nat, floor: nat)
    requires Frontier(dist, pq, order, floor)
    requires multiset(pq) == multiset(rest) + multiset{e}
    requires forall x :: x in pq ==> e.cost <= x.cost
    requires e.item in dist && e == Entry(dist[e.item], e.item) && e.item !in order
    ensures Frontier(dist, rest, order[e.item := count], e.cost)
  {
    var x := e.item;
    var order' := order[x := count];
    forall y | y in rest ensures y in pq && (y.item == x ==> dist[x] < y.cost) {
      assert y in multiset(rest);
      assert y in multiset(pq);
      if y.item == x {
        assert y != Entry(dist[x], x);
      }
    }
    forall s | s in dist && s !in order' ensures multiset(rest)[Entry(dist[s], s)] == 1 {
      assert Entry(dist[s], s) != e;
    }
  }

  /** Expanding a state not expanded before leaves fewer states to expand. */
  lemma FewerLeft(space: set<State>, order: Order, x: State, count: nat)
    requires x in space && x !in order
    ensures |space - order[x := count].Keys| < |space - order.Keys|
  {
    assert space - order[x := count].Keys == (space - order.Keys) - {x};
  }

  /**
   * Relaxing a crossing `g` out of the state `u` being expanded, when it
   * improves on the best known cost of its end state `v`: the new cost and
   * predecessor are recorded and a fresh entry is pushed.
   */
  lemma Improve(times: seq<nat>, maxGroup: int, dist: Dist, prev: Prev, pq: Queue,
                order: Order, count: nat, floor: nat, u: State, g: seq<nat>, v: State, c: nat)
    requires Searching(times, maxGroup, dist, prev, pq, order, count, floor)
    requires u in order && u in dist && dist[u] == floor && LegalGroup(|times|, maxGroup, u, g)
    requires v == Cross(u, g) && c == dist[u] + Duration(times, g)
    requires v !in dist || c < dist[v]
    ensures v !in order
    ensures Searching(times, maxGroup, dist[v := c], prev[v := (u, g)], pq + [Entry(c, v)], order, count, floor)
    ensures Lowered(dist, dist[v := c], order)
  {
    assert v !in order;
    TreeImproves(times, maxGroup, dist, prev, order, count, u, g, v, c);
    FrontierImproves(dist, pq, order, floor, v, c);
  }

  /** Recording the improved cost and predecessor of `v` keeps the shortest-path tree consistent. */
  lemma TreeImproves(times: seq<nat>, maxGroup: int, dist: Dist, prev: Prev, order: Order, count: nat,
                     u: State, g: seq<nat>, v: State, c: nat)
    requires Tree(times, maxGroup, dist, prev, order, count)
    requires u in order && u in dist && LegalGroup(|times|, maxGroup, u, g)
    requires v == Cross(u, g) && c == dist[u] + Duration(times, g)
    requires v !in order && (v !in dist || c < dist[v])
    ensures Tree(times, maxGroup, dist[v := c], prev[v := (u, g)], order, count)
  {
    CrossStaysInside(|times|, maxGroup, u, g);
    assert v != Initial(|times|);
    RecordsImprove(times, maxGroup, dist, prev, order, count, u, g, v, c);
  }

  /** The new entry for `v` is recorded correctly, and the other entries are untouched. */
  lemma RecordsImprove(times: seq<nat>, maxGroup: int, dist: Dist, prev: Prev, order: Order, count: nat,
                       u: State, g: seq<nat>, v: State, c: nat)
    requires Tree(times, maxGroup, dist, prev, order, count)
    requires u in order && u in dist && LegalGroup(|times|, maxGroup, u, g)
    requires v == Cross(u, g) && c == dist[u] + Duration(times, g) && v !in order
    ensures forall s {:trigger Recorded(times, maxGroup, dist[v := c], prev[v := (u, g)], order, s)} ::
      s in prev[v := (u, g)] && s in dist[v := c] ==> Recorded(times, maxGroup, dist[v := c], prev[v := (u, g)], order, s)
  {
    var dist', prev' := dist[v := c], prev[v := (u, g)];
    forall s | s in prev' && s in dist' ensures Recorded(times, maxGroup, dist', prev', order, s) {
      if s != v {
        assert Recorded(times, maxGroup, dist, prev, order, s);
      }
    }
  }

  /** Pushing the improved entry of `v` keeps the queue consistent, and only lowers a cost. */
  lemma FrontierImproves(dist: Dist, pq: Queue, order: Order, floor: nat, v: State, c: nat)
    requires Frontier(dist, pq, order, floor)
    requires v !in order && floor <= c
    requires v !in dist || c < dist[v]
    ensures Frontier(dist[v := c], pq + [Entry(c, v)], order, floor)
    ensures Lowered(dist, dist[v := c], order)
  {
    var dist', pq' := dist[v := c], pq + [Entry(c, v)];
    assert multiset(pq') == multiset(pq) + multiset{Entry(c, v)};
    assert Entry(c, v) !in pq;
    forall s | s in dist' && s !in order ensures multiset(pq')[Entry(dist'[s], s)] == 1 {
      if s != v {
        assert Entry(dist'[s], s) != Entry(c, v);
      }
    }
  }

  /**
   * The key step of Dijkstra's correctness. Along any legal path from the
   * start, either the path's end is known at no more than the path's cost,
   * or some state that is known but not yet expanded is.
   */
  lemma {:induction false} FrontierOnPath(times: seq<nat>, maxGroup: int, dist: Dist, done: set<State>, p: seq<seq<nat>>)
    requires Initial(|times|) in dist && dist[Initial(|times|)] == 0
    requires RelaxedFrom(times, maxGroup, dist, done)
    requires PathLegal(|times|, maxGroup, Initial(|times|), p)
    ensures AllTimed(times, p)
    ensures exists v :: v in dist && dist[v] <= PathCost(times, p) &&
                        (v == Replay(Initial(|times|), p) || v !in done)
    decreases |p|
  {
    var start := Initial(|times|);
    LegalIsTimed(times, maxGroup, start, p);
    if p == [] {
      assert dist[start] <= PathCost(times, p);
    } else {
      var q, g := p[..|p| - 1], p[|p| - 1];
      PathLegalFront(|times|, maxGroup, start, p);
      FrontierOnPath(times, maxGroup, dist, done, q);
      var v :| v in dist && dist[v] <= PathCost(times, q) && (v == Replay(start, q) || v !in done);
      assert PathCost(times, q) <= PathCost(times, p);
      if v !in done {
        assert dist[v] <= PathCost(times, p);
      } else {
        var u := Replay(start, q);
        assert Relaxed(times, maxGroup, dist, u, g);
        assert Replay(start, p) == Cross(u, g);
        assert dist[Cross(u, g)] <= PathCost(times, p);
      }
    }
  }

  /**
   * Popping the goal's live entry: the goal's known cost is optimal among
   * the paths that end outside the expanded states.
   */
  lemma PopGoal(times: seq<nat>, maxGroup: int, dist: Dist, prev: Prev, pq: Queue, rest: Queue,
                e: Entry<State>, order: Order, count: nat, floor: nat)
    requires Searching(times, maxGroup, dist, prev, pq, order, count, floor)
    requires RelaxedFrom(times, maxGroup, dist, order.Keys)
    requires multiset(pq) == multiset(rest) + multiset{e}
    requires forall x :: x in pq ==> e.cost <= x.cost
    requires !(e.item in dist && dist[e.item] < e.cost) && e.item == Goal
    ensures Goal in dist
    ensures forall p :: PathLegal(|times|, maxGroup, Initial(|times|), p) &&
                        Replay(Initial(|times|), p) !in order ==>
                        AllTimed(times, p) && dist[Goal] <= PathCost(times, p)
  {
    assert e in multiset(pq);
    PoppedIsOptimal(times, maxGroup, dist, prev, pq, order, count, floor, e);
  }

  /**
   * When a least-cost entry is popped, no legal path from the start to a
   * state not yet expanded costs less than that entry.
   */
  lemma PoppedIsOptimal(times: seq<nat>, maxGroup: int, dist: Dist, prev: Prev, pq: Queue,
                        order: Order, count: nat, floor: nat, e: Entry<State>)
    requires Searching(times, maxGroup, dist, prev, pq, order, count, floor)
    requires RelaxedFrom(times, maxGroup, dist, order.Keys)
    requires e in pq && forall x :: x in pq ==> e.cost <= x.cost
    ensures forall p :: PathLegal(|times|, maxGroup, Initial(|times|), p) &&
                        Replay(Initial(|times|), p) !in order ==>
                        AllTimed(times, p) && e.cost <= PathCost(times, p)
  {
    forall p | PathLegal(|times|, maxGroup, Initial(|times|), p) && Replay(Initial(|times|), p) !in order
      ensures AllTimed(times, p) && e.cost <= PathCost(times, p)
    {
      FrontierOnPath(times, maxGroup, dist, order.Keys, p);
      var v :| v in dist && dist[v] <= PathCost(times, p) &&
               (v == Replay(Initial(|times|), p) || v !in order.Keys);
      assert multiset(pq)[Entry(dist[v], v)] == 1;
      assert Entry(dist[v], v) in pq;
    }
  }

  /**
   * When the queue runs empty, every known state has been expanded and the
   * goal was never reached, so no legal path leads to the goal.
   */
  lemma ExhaustedMeansUnreachable(times: seq<nat>, maxGroup: int, dist: Dist, prev: Prev,
                                  order: Order, count: nat, floor: nat)
    requires Searching(times, maxGroup, dist, prev, [], order, count, floor)
    requires RelaxedFrom(times, maxGroup, dist, order.Keys)
    ensures forall p :: !Reaches(times, maxGroup, p)
  {
    forall p | PathLegal(|times|, maxGroup, Initial(|times|), p)
      ensures Replay(Initial(|times|), p) != Goal
    {
      FrontierOnPath(times, maxGroup, dist, order.Keys, p);
      var v :| v in dist && dist[v] <= PathCost(times, p) &&
               (v == Replay(Initial(|times|), p) || v !in order.Keys);
      assert v in order;
    }
  }
}
