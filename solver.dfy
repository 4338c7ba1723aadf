/**
 * `min_crossing_with_path(times, max_group)`: Dijkstra's search over the
 * crossing states, then the rebuilding of the step list.
 */
module Solver {
  import opened Combinatorics
  import opened Crossing
  import opened MinQueue
  import opened Search

  /** `"->"` (start bank to far bank) and `"<-"`. */
  datatype Direction = Forward | Backward

  /** `"->"` when the torch is on the start bank, `"<-"` when it is on the far bank. */
  function Heading(side: Side): (d: Direction)
    ensures d == Forward <==> side == Start
  {
    if side == Start then Forward else Backward
  }

  /** One reported step `(participants, direction, t)`. */
  datatype Step = Step(participants: seq<nat>, direction: Direction, t: nat)

  /** No solution, or the goal's least cost with the steps that achieve it. */
  datatype Outcome = NoSolution | Solved(total: nat, steps: seq<Step>)

  /** The groups of a step list. */
  function Participants(steps: seq<Step>): (r: seq<seq<nat>>)
    ensures |r| == |steps|
    ensures forall j :: 0 <= j < |steps| ==> r[j] == steps[j].participants
  {
    seq(|steps|, j requires 0 <= j < |steps| => steps[j].participants)
  }

  /** The sum of the steps' times. */
  function TotalTime(steps: seq<Step>): nat
  {
    if steps == [] then 0 else TotalTime(steps[..|steps| - 1]) + steps[|steps| - 1].t
  }

  /** A list in reverse order. */
  function Reverse<T>(s: seq<T>): (r: seq<T>)
    ensures |r| == |s|
    ensures forall i :: 0 <= i < |s| ==> r[i] == s[|s| - 1 - i]
  {
    if s == [] then [] else [s[|s| - 1]] + Reverse(s[..|s| - 1])
  }

  /**
   * The people standing beside the torch, in ascending order: those whose
   * bit is set when the torch is on the start bank, those whose bit is
   * clear when it is on the far bank.
   */
  method TorchSidePeople(n: nat, s: State) returns (people: seq<nat>)
    ensures BesideTorch(n, s, people)
  {
    people := [];
    for i := 0 to n
      invariant Increasing(people)
      invariant forall j :: 0 <= j < |people| ==> people[j] < i
      invariant forall j: nat :: j in people <==> j < i && OnTorchSide(s, j)
    {
      var onStart := i in s.mask;
      if (s.side == Start && onStart) || (s.side == Far && !onStart) {
        IncreasingAppend(people, i);
        people := people + [i];
      }
    }
  }

  /**
   * Flips the bit of every member of `group`, one after another. For a
   * group of distinct people exactly their bits change.
   */
  method ApplyGroup(mask: set<nat>, group: seq<nat>) returns (newMask: set<nat>)
    ensures newMask == Toggled(mask, group)
  {
    newMask := mask;
    for j := 0 to |group|
      invariant newMask == Toggled(mask, group[..j])
    {
      var i := group[j];
      newMask := if i in newMask then newMask - {i} else newMask + {i};
      assert group[..j + 1][..j] == group[..j];
    }
    assert group[..|group|] == group;
  }

  /**
   * One crossing out of the state `x` being expanded at cost `cost`: the
   * group's time, the new state, and, when the new cost beats the best
   * known one, the updates of `dist`, `prev` and the queue.
   */
  method Relax(times: seq<nat>, maxGroup: int, x: State, cost: nat, group: seq<nat>,
               dist: Dist, prev: Prev, pq: Queue, ghost order: Order, ghost count: nat)
    returns (dist': Dist, prev': Prev, pq': Queue)
    requires Searching(times, maxGroup, dist, prev, pq, order, count, cost)
    requires x in order && x in dist && dist[x] == cost && LegalGroup(|times|, maxGroup, x, group)
    ensures var v, c := Cross(x, group), cost + Duration(times, group);
            if v !in dist || c < dist[v] then
              dist' == dist[v := c] && prev' == prev[v := (x, group)] && pq' == pq + [Entry(c, v)]
            else
              dist' == dist && prev' == prev && pq' == pq
    ensures Searching(times, maxGroup, dist', prev', pq', order, count, cost)
    ensures Lowered(dist, dist', order)
    ensures Relaxed(times, maxGroup, dist', x, group)
  {
    var t := Duration(times, group);
    var newMask := ApplyGroup(x.mask, group);
    var newSide := Opposite(x.side);
    var newState := State(newMask, newSide);
    var newCost := cost + t;
    if newState !in dist || newCost < dist[newState] {
      Improve(times, maxGroup, dist, prev, pq, order, count, cost, x, group, newState, newCost);
      dist' := dist[newState := newCost];
      prev' := prev[newState := (x, group)];
      pq' := pq + [Entry(newCost, newState)];
    } else {
      dist', prev', pq' := dist, prev, pq;
    }
  }

  /**
   * Relaxes each group of `groups` in turn, as the solver does for the
   * combinations of one size.
   */
  method RelaxAll(times: seq<nat>, maxGroup: int, x: State, cost: nat, groups: seq<seq<nat>>,
                  dist: Dist, prev: Prev, pq: Queue, ghost order: Order, ghost count: nat)
    returns (dist': Dist, prev': Prev, pq': Queue)
    requires Searching(times, maxGroup, dist, prev, pq, order, count, cost)
    requires x in order && x in dist && dist[x] == cost
    requires forall i :: 0 <= i < |groups| ==> LegalGroup(|times|, maxGroup, x, groups[i])
    ensures Searching(times, maxGroup, dist', prev', pq', order, count, cost)
    ensures Lowered(dist, dist', order)
    ensures forall i :: 0 <= i < |groups| ==> Relaxed(times, maxGroup, dist', x, groups[i])
  {
    dist', prev', pq' := dist, prev, pq;
    for j := 0 to |groups|
      invariant Searching(times, maxGroup, dist', prev', pq', order, count, cost)
      invariant Lowered(dist, dist', order)
      invariant forall i :: 0 <= i < j ==> Relaxed(times, maxGroup, dist', x, groups[i])
    {
      ghost var before := dist';
      dist', prev', pq' := Relax(times, maxGroup, x, cost, groups[j], dist', prev', pq', order, count);
      GroupsStayRelaxed(times, maxGroup, before, dist', order, x, groups, j);
      LoweredChains(dist, before, dist', order);
    }
  }

  /**
   * The groups already relaxed out of an expanded state stay relaxed while
   * costs are lowered, so with `groups[j]` just relaxed the first `j + 1` are.
   */
  lemma GroupsStayRelaxed(times: seq<nat>, maxGroup: int, dist: Dist, dist': Dist, order: Order,
                          x: State, groups: seq<seq<nat>>, j: nat)
    requires Lowered(dist, dist', order) && x in order && x in dist && j < |groups|
    requires forall i :: 0 <= i < j ==> Relaxed(times, maxGroup, dist, x, groups[i])
    requires Relaxed(times, maxGroup, dist', x, groups[j])
    ensures forall i :: 0 <= i < j + 1 ==> Relaxed(times, maxGroup, dist', x, groups[i])
  {
    forall i | 0 <= i < j ensures Relaxed(times, maxGroup, dist', x, groups[i]) {
      RelaxedStays(times, maxGroup, dist, dist', order, x, groups[i]);
    }
  }

  /** Every `k`-combination of the people beside the torch may cross, when `k` is at most `maxGroup`. */
  lemma CombinationsLegal(n: nat, maxGroup: int, x: State, people: seq<nat>, k: nat)
    requires BesideTorch(n, x, people) && 1 <= k <= maxGroup
    ensures forall i :: 0 <= i < |Combinations(people, k)| ==> LegalGroup(n, maxGroup, x, Combinations(people, k)[i])
  {
    var groups := Combinations(people, k);
    CombinationsIncreasing(people, k);
    forall i | 0 <= i < |groups| ensures LegalGroup(n, maxGroup, x, groups[i]) {
      var group := groups[i];
      forall m | 0 <= m < |group| ensures group[m] < n && OnTorchSide(x, group[m]) {
        assert group[m] in people;
      }
    }
  }

  /** A legal group from `x` is one of the combinations of the people beside the torch. */
  lemma LegalIsCombination(n: nat, maxGroup: int, x: State, people: seq<nat>, c: seq<nat>)
    requires BesideTorch(n, x, people) && LegalGroup(n, maxGroup, x, c)
    ensures c in Combinations(people, |c|)
  {
    forall j | 0 <= j < |c| ensures c[j] in people {
    }
    CombinationsComplete(people, c);
  }

  /**
   * Once every `k`-combination has been relaxed, every legal group of fewer
   * than `k + 1` people has been tried.
   */
  lemma SizeDone(times: seq<nat>, maxGroup: int, x: State, people: seq<nat>, k: nat,
                 dist: Dist, dist': Dist, order: Order)
    requires BesideTorch(|times|, x, people) && x in order && x in dist
    requires Lowered(dist, dist', order)
    requires forall c :: LegalGroup(|times|, maxGroup, x, c) && |c| < k ==> Relaxed(times, maxGroup, dist, x, c)
    requires forall i :: 0 <= i < |Combinations(people, k)| ==> Relaxed(times, maxGroup, dist', x, Combinations(people, k)[i])
    ensures forall c :: LegalGroup(|times|, maxGroup, x, c) && |c| < k + 1 ==> Relaxed(times, maxGroup, dist', x, c)
  {
    SmallerStayRelaxed(times, maxGroup, x, k, dist, dist', order);
    forall c | LegalGroup(|times|, maxGroup, x, c) && |c| == k ensures Relaxed(times, maxGroup, dist', x, c) {
      RelaxedCombination(times, maxGroup, x, people, dist', c);
    }
  }

  /** The legal groups of fewer than `k` people stay relaxed while costs are lowered. */
  lemma SmallerStayRelaxed(times: seq<nat>, maxGroup: int, x: State, k: nat, dist: Dist, dist': Dist, order: Order)
    requires x in order && x in dist && Lowered(dist, dist', order)
    requires forall c :: LegalGroup(|times|, maxGroup, x, c) && |c| < k ==> Relaxed(times, maxGroup, dist, x, c)
    ensures forall c :: LegalGroup(|times|, maxGroup, x, c) && |c| < k ==> Relaxed(times, maxGroup, dist', x, c)
  {
    forall c | LegalGroup(|times|, maxGroup, x, c) && |c| < k ensures Relaxed(times, maxGroup, dist', x, c) {
      RelaxedStays(times, maxGroup, dist, dist', order, x, c);
    }
  }

  /** A legal group of `k` people was relaxed along with the other `k`-combinations. */
  lemma RelaxedCombination(times: seq<nat>, maxGroup: int, x: State, people: seq<nat>, dist: Dist, c: seq<nat>)
    requires BesideTorch(|times|, x, people) && LegalGroup(|times|, maxGroup, x, c)
    requires forall i :: 0 <= i < |Combinations(people, |c|)| ==> Relaxed(times, maxGroup, dist, x, Combinations(people, |c|)[i])
    ensures Relaxed(times, maxGroup, dist, x, c)
  {
    LegalIsCombination(|times|, maxGroup, x, people, c);
    var groups := Combinations(people, |c|);
    var i :| 0 <= i < |groups| && groups[i] == c;
  }

  /**
   * After the groups of every size up to `min(maxGroup, |people|)` have been
   * relaxed, every crossing out of every expanded state has been tried.
   */
  lemma ExpansionDone(times: seq<nat>, maxGroup: int, x: State, people: seq<nat>, k: nat,
                      dist: Dist, dist': Dist, order: Order)
    requires BesideTorch(|times|, x, people) && (k > maxGroup || k > |people|)
    requires x in order && forall u :: u in order ==> u in dist
    requires Lowered(dist, dist', order)
    requires RelaxedFrom(times, maxGroup, dist, order.Keys - {x})
    requires forall c :: LegalGroup(|times|, maxGroup, x, c) && |c| < k ==> Relaxed(times, maxGroup, dist', x, c)
    ensures RelaxedFrom(times, maxGroup, dist', order.Keys)
  {
    RelaxedFromStays(times, maxGroup, dist, dist', order, order.Keys - {x});
    forall u, g | u in order.Keys ensures Relaxed(times, maxGroup, dist', u, g) {
      if u == x && LegalGroup(|times|, maxGroup, x, g) {
        LegalIsCombination(|times|, maxGroup, x, people, g);
      }
    }
  }

  /**
   * Expanding the state `x`: for `k` from 1 to `min(maxGroup, |people|)`,
   * every `k`-group of the people beside the torch is relaxed. Afterwards
   * every legal crossing out of `x` has been tried.
   */
  method Expand(times: seq<nat>, maxGroup: int, x: State, cost: nat,
                dist: Dist, prev: Prev, pq: Queue, ghost order: Order, ghost count: nat)
    returns (dist': Dist, prev': Prev, pq': Queue)
    requires Searching(times, maxGroup, dist, prev, pq, order, count, cost)
    requires x in order && x in dist && dist[x] == cost
    requires RelaxedFrom(times, maxGroup, dist, order.Keys - {x})
    ensures Searching(times, maxGroup, dist', prev', pq', order, count, cost)
    ensures Lowered(dist, dist', order)
    ensures RelaxedFrom(times, maxGroup, dist', order.Keys)
  {
    var n := |times|;
    var people := TorchSidePeople(n, x);
    var most := if maxGroup < |people| then maxGroup else |people|;
    dist', prev', pq' := dist, prev, pq;
    var k := 1;
    while k <= most
      invariant 1 <= k
      invariant Searching(times, maxGroup, dist', prev', pq', order, count, cost)
      invariant Lowered(dist, dist', order)
      invariant forall c :: LegalGroup(n, maxGroup, x, c) && |c| < k ==> Relaxed(times, maxGroup, dist', x, c)
    {
      var groups := Combinations(people, k);
      CombinationsLegal(n, maxGroup, x, people, k);
      ghost var before := dist';
      dist', prev', pq' := RelaxAll(times, maxGroup, x, cost, groups, dist', prev', pq', order, count);
      SizeDone(times, maxGroup, x, people, k, before, dist', order);
      LoweredChains(dist, before, dist', order);
      k := k + 1;
    }
    ExpansionDone(times, maxGroup, x, people, k, dist, dist', order);
  }

  /**
   * Follows the recorded predecessors from the goal back to the start,
   * collecting their groups, then reverses the list: the crossings from the
   * start to the goal, in order, costing exactly the goal's known cost.
   */
  method WalkBack(times: seq<nat>, maxGroup: int, dist: Dist, prev: Prev, ghost order: Order, ghost count: nat)
    returns (path: seq<seq<nat>>)
    requires Tree(times, maxGroup, dist, prev, order, count) && Goal in dist
    ensures PathLegal(|times|, maxGroup, Initial(|times|), path)
    ensures Replay(Initial(|times|), path) == Goal
    ensures AllTimed(times, path) && PathCost(times, path) == dist[Goal]
  {
    var n := |times|;
    var start := Initial(n);
    path := [];
    var cur := Goal;
    while cur != start
      invariant cur in dist && (cur == Goal || cur in order)
      invariant PathLegal(n, maxGroup, cur, Reverse(path)) && Replay(cur, Reverse(path)) == Goal
      invariant AllTimed(times, Reverse(path))
      invariant dist[cur] + PathCost(times, Reverse(path)) == dist[Goal]
      decreases if cur in order then order[cur] else count
    {
      var p := prev[cur];
      assert Recorded(times, maxGroup, dist, prev, order, cur);
      var suffix := Reverse(path);
      assert (path + [p.1])[..|path|] == path;
      assert Reverse(path + [p.1]) == [p.1] + suffix;
      PathLegalPrepend(n, maxGroup, p.0, p.1, suffix);
      ReplayPrepend(p.0, p.1, suffix);
      PathCostPrepend(times, p.1, suffix);
      path := path + [p.1];
      cur := p.0;
    }
    path := Reverse(path);
  }

  /**
   * The step list reported for a path: each step lists its group, the
   * direction the torch travels and the group's time.
   */
  function Described(times: seq<nat>, path: seq<seq<nat>>): seq<Step>
    requires AllTimed(times, path)
  {
    if path == [] then []
    else
      var last := |path| - 1;
      Described(times, path[..last]) + [Step(path[last], Heading(TorchAfter(last)), Duration(times, path[last]))]
  }

  /** Describing one more crossing appends its step. */
  lemma DescribedStep(times: seq<nat>, path: seq<seq<nat>>, j: nat)
    requires AllTimed(times, path) && j < |path|
    ensures Described(times, path[..j + 1]) ==
            Described(times, path[..j]) + [Step(path[j], Heading(TorchAfter(j)), Duration(times, path[j]))]
  {
    assert path[..j + 1][..j] == path[..j];
  }

  /**
   * Step `j` of a path's description lists the `j`-th group, the direction
   * in which the torch travels on the `j`-th crossing (`"->"` on even
   * crossings, `"<-"` on odd ones) and the group's time.
   */
  lemma {:induction false} DescribedSteps(times: seq<nat>, path: seq<seq<nat>>)
    requires AllTimed(times, path)
    ensures |Described(times, path)| == |path|
    ensures Participants(Described(times, path)) == path
    ensures forall j :: 0 <= j < |path| ==>
              Described(times, path)[j].t == Duration(times, path[j]) &&
              Described(times, path)[j].direction == if j % 2 == 0 then Forward else Backward
  {
    if path != [] {
      var last := |path| - 1;
      var front := path[..last];
      DescribedSteps(times, front);
      TorchAlternates(last);
      var d := Described(times, path);
      assert forall j :: 0 <= j < last ==> d[j] == Described(times, front)[j] && front[j] == path[j];
    }
  }

  /**
   * Builds the step list of the path, one crossing at a time, while the
   * mask and side are replayed alongside.
   */
  method Describe(times: seq<nat>, path: seq<seq<nat>>) returns (steps: seq<Step>)
    requires AllTimed(times, path)
    ensures steps == Described(times, path)
  {
    ghost var start := Initial(|times|);
    steps := [];
    var curMask := Everyone(|times|);
    var curSide := Start;
    for j := 0 to |path|
      invariant steps == Described(times, path[..j])
      invariant State(curMask, curSide) == Replay(start, path[..j])
      invariant curSide == TorchAfter(j)
    {
      var group := path[j];
      var t := Duration(times, group);
      var direction := Heading(curSide);
      var participants := group;
      steps := steps + [Step(participants, direction, t)];
      DescribedStep(times, path, j);
      ReplayStep(start, path, j);
      curMask := ApplyGroup(curMask, group);
      curSide := Opposite(curSide);
    }
    assert path[..|path|] == path;
  }

  /** Reported times add up to the cost of the path they describe. */
  lemma {:induction false} TotalTimeIsPathCost(times: seq<nat>, steps: seq<Step>)
    requires AllTimed(times, Participants(steps))
    requires forall j :: 0 <= j < |steps| ==> steps[j].t == Duration(times, steps[j].participants)
    ensures TotalTime(steps) == PathCost(times, Participants(steps))
  {
    if steps != [] {
      var front := steps[..|steps| - 1];
      assert Participants(front) == Participants(steps)[..|steps| - 1];
      TotalTimeIsPathCost(times, front);
    }
  }

  /**
   * The goal has been reached at its least cost: the path is walked back
   * and described, and the goal's cost with those steps is the answer.
   */
  method Finish(times: seq<nat>, maxGroup: int, dist: Dist, prev: Prev, ghost order: Order, ghost count: nat)
    returns (r: Outcome)
    requires Tree(times, maxGroup, dist, prev, order, count) && Goal in dist
    requires forall p :: PathLegal(|times|, maxGroup, Initial(|times|), p) && Replay(Initial(|times|), p) !in order ==>
                         AllTimed(times, p) && dist[Goal] <= PathCost(times, p)
    ensures r.Solved? && r.total == dist[Goal]
    ensures Reaches(times, maxGroup, Participants(r.steps))
    ensures forall j :: 0 <= j < |r.steps| ==>
              Timed(times, r.steps[j].participants) &&
              r.steps[j].t == Duration(times, r.steps[j].participants) &&
              r.steps[j].direction == if j % 2 == 0 then Forward else Backward
    ensures r.total == TotalTime(r.steps)
    ensures forall p :: Reaches(times, maxGroup, p) ==> AllTimed(times, p) && r.total <= PathCost(times, p)
  {
    var path := WalkBack(times, maxGroup, dist, prev, order, count);
    var steps := Describe(times, path);
    DescribedSteps(times, path);
    TotalTimeIsPathCost(times, steps);
    r := Solved(dist[Goal], steps);
  }

  /**
   * `min_crossing_with_path`. The result is `NoSolution` exactly when no
   * sequence of legal crossings takes everybody across. Otherwise the steps
   * replay legally from the start to the goal, their directions alternate
   * starting with `"->"`, each time is the slowest participant's, the total
   * is the sum of the times, and no solution is faster.
   */
  method Solve(times: seq<nat>, maxGroup: int) returns (r: Outcome)
    ensures r.NoSolution? <==> forall p :: !Reaches(times, maxGroup, p)
    ensures r.Solved? ==> Reaches(times, maxGroup, Participants(r.steps))
    ensures r.Solved? ==> forall j :: 0 <= j < |r.steps| ==>
              Timed(times, r.steps[j].participants) &&
              r.steps[j].t == Duration(times, r.steps[j].participants) &&
              r.steps[j].direction == if j % 2 == 0 then Forward else Backward
    ensures r.Solved? ==> r.total == TotalTime(r.steps)
    ensures r.Solved? ==> forall p :: Reaches(times, maxGroup, p) ==> AllTimed(times, p) && r.total <= PathCost(times, p)
  {
    var reached, dist, prev, order, count := Explore(times, maxGroup);
    if reached {
      r := Finish(times, maxGroup, dist, prev, order, count);
    } else {
      r := NoSolution;
    }
  }

  /**
   * The search loop of `min_crossing_with_path`: pops the cheapest entry,
   * skips it when stale, stops at the goal, and otherwise expands it. It
   * stops at the goal with the goal's cost optimal among paths ending
   * outside the expanded states, or runs out of entries when the goal is
   * unreachable.
   */
  method Explore(times: seq<nat>, maxGroup: int)
    returns (reached: bool, dist: Dist, prev: Prev, ghost order: Order, ghost count: nat)
    ensures reached ==> Tree(times, maxGroup, dist, prev, order, count) && Goal in dist
    ensures reached ==> forall p :: PathLegal(|times|, maxGroup, Initial(|times|), p) && Replay(Initial(|times|), p) !in order ==>
                                    AllTimed(times, p) && dist[Goal] <= PathCost(times, p)
    ensures !reached ==> forall p :: !Reaches(times, maxGroup, p)
  {
    var n := |times|;
    var all := Everyone(n);
    var start := State(all, Start);
    var pq: Queue := [Entry(0, start)];
    dist := map[start := 0];
    prev := map[];
    order := map[];
    count := 0;
    ghost var floor: nat := 0;
    Launch(times, maxGroup);
    ghost var space := States(n);
    while pq != []
      invariant Searching(times, maxGroup, dist, prev, pq, order, count, floor)
      invariant RelaxedFrom(times, maxGroup, dist, order.Keys)
      decreases |space - order.Keys|, |pq|
    {
      var e, rest := PopMin(pq);
      ghost var before := pq;
      pq := rest;
      var cost, state := e.cost, e.item;
      if state in dist && dist[state] < cost {
        PopStale(times, maxGroup, dist, prev, before, rest, e, order, count, floor);
        floor := cost;
        continue;
      }
      if state == Goal {
        PopGoal(times, maxGroup, dist, prev, before, rest, e, order, count, floor);
        return true, dist, prev, order, count;
      }
      PopFresh(times, maxGroup, dist, prev, before, rest, e, order, count, floor);
      FewerLeft(space, order, state, count);
      floor := cost;
      order := order[state := count];
      count := count + 1;
      dist, prev, pq := Expand(times, maxGroup, state, cost, dist, prev, pq, order, count);
    }
    ExhaustedMeansUnreachable(times, maxGroup, dist, prev, order, count, floor);
    reached := false;
  }

}
