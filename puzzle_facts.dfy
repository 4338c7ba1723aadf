/**
 * Facts about the puzzle the solver searches: when a solution exists at
 * all, what every solution must cost, and what the optimum is when the
 * whole party fits on the bridge at once. Together with the contract of
 * `Solver.Solve` (which answers `NoSolution` exactly when no solution
 * exists, and otherwise a cheapest one) they fix the solver's answer in
 * these cases.
 */
module PuzzleFacts {
  import opened Combinatorics
  import opened Crossing

  /** The index tuple `[0, 1, .., n-1]`: everybody at once. */
  function Range(n: nat): (r: seq<nat>)
    ensures |r| == n && forall i :: 0 <= i < n ==> r[i] == i
  {
    if n == 0 then [] else Range(n - 1) + [n - 1]
  }

  /** A one-crossing path starts from the start state. */
  lemma SingleStep(n: nat, maxGroup: int, g: seq<nat>)
    ensures PathLegal(n, maxGroup, Initial(n), [g]) <==> LegalGroup(n, maxGroup, Initial(n), g)
    ensures Replay(Initial(n), [g]) == Cross(Initial(n), g)
  {
    assert [g][..0] == [];
  }

  /** A crossing of one or two people flips their bits in turn. */
  lemma ToggledSmall(mask: set<nat>, a: nat, b: nat)
    ensures Toggled(mask, [a]) == Toggle(mask, a)
    ensures Toggled(mask, [a, b]) == Toggle(Toggle(mask, a), b)
  {
    assert [a][..0] == [];
    assert [a, b][..1] == [a];
  }

  /** The first crossing of a legal path needs somebody to move and room for one. */
  lemma SomebodyMoves(n: nat, maxGroup: int, s: State, p: seq<seq<nat>>)
    requires p != [] && PathLegal(n, maxGroup, s, p)
    ensures n >= 1 && maxGroup >= 1
  {
    assert p[..0] == [];
    assert LegalGroup(n, maxGroup, Replay(s, p[..0]), p[0]);
    assert p[0][0] < n;
  }

  /**
   * With nobody to move (no people, or no group size allowed) no crossing
   * is legal, and the start state is not the goal: there is no solution.
   */
  lemma NoMovesNoSolution(times: seq<nat>, maxGroup: int)
    requires |times| == 0 || maxGroup < 1
    ensures forall p :: !Reaches(times, maxGroup, p)
  {
    var start := Initial(|times|);
    forall p | PathLegal(|times|, maxGroup, start, p) ensures Replay(start, p) != Goal {
      if p != [] {
        SomebodyMoves(|times|, maxGroup, start, p);
        assert false;
      }
    }
  }

  /**
   * Crossing one at a time, the start bank holds everybody whenever the
   * torch is there and everybody but one whenever it is not.
   */
  lemma {:induction false} SoloHeadcount(n: nat, maxGroup: int, p: seq<seq<nat>>)
    requires maxGroup <= 1 && n >= 1 && PathLegal(n, maxGroup, Initial(n), p)
    ensures Replay(Initial(n), p).mask <= Everyone(n)
    ensures |Replay(Initial(n), p).mask| == if Replay(Initial(n), p).side == Start then n else n - 1
    decreases |p|
  {
    if p == [] {
      assert |Everyone(n)| == n by {
        EveryoneSize(n);
      }
    } else {
      var front, g := p[..|p| - 1], p[|p| - 1];
      PathLegalFront(n, maxGroup, Initial(n), p);
      SoloHeadcount(n, maxGroup, front);
      var s := Replay(Initial(n), front);
      assert |g| == 1;
      var i := g[0];
      assert g == [i];
      ToggledSmall(s.mask, i, i);
      if s.side == Start {
        assert s.mask == (s.mask - {i}) + {i};
      }
    }
  }

  /** `Everyone(n)` holds `n` people. */
  lemma {:induction false} EveryoneSize(n: nat)
    ensures |Everyone(n)| == n
  {
    if n > 0 {
      var prior := Everyone(n - 1);
      EveryoneSize(n - 1);
      assert n - 1 !in prior;
      assert |prior + {n - 1}| == |prior| + 1;
    }
  }

  /**
   * Two or more people who may only cross alone never finish: somebody
   * must bring the torch back after every crossing but the last, so the
   * far bank never holds more than one person at a time.
   */
  lemma SoloCrossingsNeverFinish(times: seq<nat>, maxGroup: int)
    requires maxGroup <= 1 && |times| >= 2
    ensures forall p :: !Reaches(times, maxGroup, p)
  {
    forall p | PathLegal(|times|, maxGroup, Initial(|times|), p) ensures Replay(Initial(|times|), p) != Goal {
      SoloHeadcount(|times|, maxGroup, p);
    }
  }

  /** The escort rounds: person 0 takes person `k` across and comes back, for `k = 1 .. rounds`. */
  function EscortRounds(rounds: nat): seq<seq<nat>>
  {
    if rounds == 0 then [] else EscortRounds(rounds - 1) + [[0, rounds], [0]]
  }

  /**
   * A solution for `n >= 1` people with room for two: person 0 escorts each
   * of the others across, returning after every trip but the last.
   */
  function Escort(n: nat): seq<seq<nat>>
    requires n >= 1
  {
    if n == 1 then [[0]] else EscortRounds(n - 2) + [[0, n - 1]]
  }

  /** Who is still on the start bank after `rounds` escort rounds: person 0 and everybody above `rounds`. */
  ghost function Waiting(n: nat, rounds: nat): set<nat>
  {
    set i | i in Everyone(n) && (i == 0 || rounds < i)
  }

  /** The escort rounds are legal and leave exactly the people still waiting, with the torch, on the start bank. */
  lemma {:induction false} EscortRoundsReplay(n: nat, maxGroup: int, rounds: nat)
    requires maxGroup >= 2 && rounds + 2 <= n
    ensures PathLegal(n, maxGroup, Initial(n), EscortRounds(rounds))
    ensures Replay(Initial(n), EscortRounds(rounds)) == State(Waiting(n, rounds), Start)
  {
    if rounds == 0 {
      assert Waiting(n, 0) == Everyone(n);
    } else {
      EscortRoundsReplay(n, maxGroup, rounds - 1);
      EscortRound(n, maxGroup, rounds, EscortRounds(rounds - 1));
    }
  }

  /** One escort round: person 0 takes person `k` over and comes back alone. */
  lemma EscortRound(n: nat, maxGroup: int, k: nat, before: seq<seq<nat>>)
    requires maxGroup >= 2 && 1 <= k && k + 2 <= n
    requires PathLegal(n, maxGroup, Initial(n), before)
    requires Replay(Initial(n), before) == State(Waiting(n, k - 1), Start)
    ensures PathLegal(n, maxGroup, Initial(n), before + [[0, k], [0]])
    ensures Replay(Initial(n), before + [[0, k], [0]]) == State(Waiting(n, k), Start)
  {
    var waiting := Waiting(n, k - 1);
    assert 0 in waiting && k in waiting;
    EscortThere(n, maxGroup, k, before, waiting);
    EscortBack(n, maxGroup, before + [[0, k]], Toggle(Toggle(waiting, 0), k));
    WaitingAfterRound(n, k);
    assert before + [[0, k], [0]] == before + [[0, k]] + [[0]];
  }

  /** Person 0 takes person `k` from the start bank to the far bank. */
  lemma EscortThere(n: nat, maxGroup: int, k: nat, before: seq<seq<nat>>, waiting: set<nat>)
    requires maxGroup >= 2 && 1 <= k < n
    requires PathLegal(n, maxGroup, Initial(n), before)
    requires Replay(Initial(n), before) == State(waiting, Start)
    requires 0 in waiting && k in waiting
    ensures PathLegal(n, maxGroup, Initial(n), before + [[0, k]])
    ensures Replay(Initial(n), before + [[0, k]]) == State(Toggle(Toggle(waiting, 0), k), Far)
    ensures 0 !in Toggle(Toggle(waiting, 0), k)
  {
    var there := [0, k];
    assert OnTorchSide(State(waiting, Start), 0) && OnTorchSide(State(waiting, Start), k);
    assert LegalGroup(n, maxGroup, State(waiting, Start), there);
    PathLegalAppend(n, maxGroup, Initial(n), before, there);
    ToggledSmall(waiting, 0, k);
  }

  /** Person 0, waiting on the far bank with the torch, brings it back alone. */
  lemma EscortBack(n: nat, maxGroup: int, p: seq<seq<nat>>, over: set<nat>)
    requires maxGroup >= 1 && 1 <= n
    requires PathLegal(n, maxGroup, Initial(n), p)
    requires Replay(Initial(n), p) == State(over, Far)
    requires 0 !in over
    ensures PathLegal(n, maxGroup, Initial(n), p + [[0]])
    ensures Replay(Initial(n), p + [[0]]) == State(Toggle(over, 0), Start)
  {
    assert LegalGroup(n, maxGroup, State(over, Far), [0]);
    PathLegalAppend(n, maxGroup, Initial(n), p, [0]);
    ToggledSmall(over, 0, 0);
  }

  /** Person 0 and person `k` cross, then person 0 returns: `k` has left the start bank. */
  lemma WaitingAfterRound(n: nat, k: nat)
    requires 1 <= k < n
    ensures Toggle(Toggle(Toggle(Waiting(n, k - 1), 0), k), 0) == Waiting(n, k)
  {
  }

  /** A lone person crosses in one trip, when groups of one are allowed. */
  lemma LoneCrossing(times: seq<nat>, maxGroup: int)
    requires |times| == 1 && maxGroup >= 1
    ensures Reaches(times, maxGroup, [[0]])
  {
    SingleStep(1, maxGroup, [0]);
    ToggledSmall(Everyone(1), 0, 0);
    assert Toggle(Everyone(1), 0) == {};
  }

  /** The last escort trip takes person 0 and the last person over together. */
  lemma EscortLastTrip(n: nat, maxGroup: int)
    requires n >= 2 && maxGroup >= 2
    ensures PathLegal(n, maxGroup, Initial(n), Escort(n))
    ensures Replay(Initial(n), Escort(n)) == Goal
  {
    var last := [0, n - 1];
    assert Escort(n) == EscortRounds(n - 2) + [last];
    EscortRoundsReplay(n, maxGroup, n - 2);
    var waiting := Waiting(n, n - 2);
    WaitingLast(n);
    PathLegalAppend(n, maxGroup, Initial(n), EscortRounds(n - 2), last);
    ToggledSmall(waiting, 0, n - 1);
  }

  /** After the escort rounds only person 0 and the last person wait, and their trip empties the start bank. */
  lemma WaitingLast(n: nat)
    requires n >= 2
    ensures 0 in Waiting(n, n - 2) && n - 1 in Waiting(n, n - 2)
    ensures Toggle(Toggle(Waiting(n, n - 2), 0), n - 1) == {}
  {
    var waiting := Waiting(n, n - 2);
    assert waiting == {0, n - 1};
  }

  /** With room for two, the escort plan takes everybody across. */
  lemma EscortReaches(times: seq<nat>, maxGroup: int)
    requires |times| >= 1 && maxGroup >= 2
    ensures Reaches(times, maxGroup, Escort(|times|))
  {
    if |times| == 1 {
      LoneCrossing(times, maxGroup);
    } else {
      EscortLastTrip(|times|, maxGroup);
    }
  }

  /**
   * When a solution exists: there must be somebody, and either room for
   * two on the bridge or a single person who may cross alone.
   */
  lemma Solvable(times: seq<nat>, maxGroup: int)
    ensures (exists p :: Reaches(times, maxGroup, p)) <==>
            |times| >= 1 && maxGroup >= 1 && (maxGroup >= 2 || |times| == 1)
  {
    var n := |times|;
    if n >= 1 && maxGroup >= 2 {
      EscortReaches(times, maxGroup);
    } else if n == 1 && maxGroup == 1 {
      LoneCrossing(times, maxGroup);
    } else if n == 0 || maxGroup < 1 {
      NoMovesNoSolution(times, maxGroup);
    } else {
      SoloCrossingsNeverFinish(times, maxGroup);
    }
  }

  /** Flipping the bits of a group that leaves out `i` leaves `i`'s bit alone. */
  lemma {:induction false} ToggledKeeps(mask: set<nat>, g: seq<nat>, i: nat)
    requires i !in g
    ensures (i in Toggled(mask, g)) == (i in mask)
    decreases |g|
  {
    if g != [] {
      var front := g[..|g| - 1];
      assert i !in front by {
        assert forall j :: 0 <= j < |front| ==> front[j] == g[j];
      }
      ToggledKeeps(mask, front, i);
    }
  }

  /** A person who is in none of the groups of a path stays on their bank. */
  lemma {:induction false} ReplayKeeps(s: State, p: seq<seq<nat>>, i: nat)
    requires forall j :: 0 <= j < |p| ==> i !in p[j]
    ensures (i in Replay(s, p).mask) == (i in s.mask)
    decreases |p|
  {
    if p != [] {
      var front := p[..|p| - 1];
      ReplayKeeps(s, front, i);
      ToggledKeeps(Replay(s, front).mask, p[|p| - 1], i);
    }
  }

  /** Every person is in some group of every solution. */
  lemma EveryoneCrosses(times: seq<nat>, maxGroup: int, p: seq<seq<nat>>, i: nat)
    requires Reaches(times, maxGroup, p) && i < |times|
    ensures exists j :: 0 <= j < |p| && i in p[j]
  {
    if forall j :: 0 <= j < |p| ==> i !in p[j] {
      ReplayKeeps(Initial(|times|), p, i);
      assert false;
    }
  }

  /** A path costs at least as much as any one of its crossings. */
  lemma {:induction false} StepWithinCost(times: seq<nat>, p: seq<seq<nat>>, j: nat)
    requires AllTimed(times, p) && j < |p|
    ensures Duration(times, p[j]) <= PathCost(times, p)
    decreases |p|
  {
    var front := p[..|p| - 1];
    if j < |p| - 1 {
      assert front[j] == p[j];
      StepWithinCost(times, front, j);
    }
  }

  /** Every solution takes at least as long as any single person takes to cross. */
  lemma SlowestBound(times: seq<nat>, maxGroup: int, p: seq<seq<nat>>, i: nat)
    requires Reaches(times, maxGroup, p) && i < |times|
    ensures AllTimed(times, p) && times[i] <= PathCost(times, p)
  {
    LegalIsTimed(times, maxGroup, Initial(|times|), p);
    EveryoneCrosses(times, maxGroup, p, i);
    var j :| 0 <= j < |p| && i in p[j];
    DurationIsSlowest(times, p[j]);
    StepWithinCost(times, p, j);
  }

  /**
   * When the whole party fits on the bridge, one crossing of everybody is
   * a solution, and it is a cheapest one: it costs the slowest person's
   * time, which no solution can beat.
   */
  lemma AllAtOnce(times: seq<nat>, maxGroup: int)
    requires 1 <= |times| <= maxGroup
    ensures Reaches(times, maxGroup, [Range(|times|)])
    ensures AllTimed(times, [Range(|times|)])
    ensures PathCost(times, [Range(|times|)]) == Duration(times, Range(|times|))
    ensures forall i :: 0 <= i < |times| ==> times[i] <= Duration(times, Range(|times|))
    ensures forall q :: Reaches(times, maxGroup, q) ==>
              AllTimed(times, q) && Duration(times, Range(|times|)) <= PathCost(times, q)
  {
    var n := |times|;
    var everybody := Range(n);
    EverybodyAtOnce(n, maxGroup);
    DurationIsSlowest(times, everybody);
    forall i | 0 <= i < n ensures times[i] <= Duration(times, everybody) {
      assert everybody[i] == i;
    }
    forall q | Reaches(times, maxGroup, q)
      ensures AllTimed(times, q) && Duration(times, everybody) <= PathCost(times, q)
    {
      var m :| 0 <= m < n && times[everybody[m]] == Duration(times, everybody);
      SlowestBound(times, maxGroup, q, m);
    }
  }

  /** When the whole party fits on the bridge, everybody can cross together in one trip. */
  lemma EverybodyAtOnce(n: nat, maxGroup: int)
    requires 1 <= n <= maxGroup
    ensures PathLegal(n, maxGroup, Initial(n), [Range(n)])
    ensures Replay(Initial(n), [Range(n)]) == Goal
  {
    RangeLegal(n, maxGroup);
    RangeEmpties(n);
    SingleStep(n, maxGroup, Range(n));
  }

  /** Everybody at once is a legal group from the start when the bridge holds them all. */
  lemma RangeLegal(n: nat, maxGroup: int)
    requires 1 <= n <= maxGroup
    ensures LegalGroup(n, maxGroup, Initial(n), Range(n))
  {
    PairsIncreasing(Range(n));
  }

  /** Everybody crossing from the start empties the start bank. */
  lemma RangeEmpties(n: nat)
    ensures Cross(Initial(n), Range(n)) == Goal
  {
    var everybody := Range(n);
    PairsIncreasing(everybody);
    CrossMovesGroup(Initial(n), everybody);
    var after := Cross(Initial(n), everybody).mask;
    forall i: nat ensures i !in after {
      if i < n {
        assert everybody[i] == i;
      }
    }
    assert after == {};
  }

  /** With every time positive, a path costs at least its number of crossings. */
  lemma {:induction false} CostAtLeastLength(times: seq<nat>, p: seq<seq<nat>>)
    requires AllTimed(times, p) && forall i :: 0 <= i < |times| ==> times[i] >= 1
    ensures PathCost(times, p) >= |p|
    decreases |p|
  {
    if p != [] {
      CostAtLeastLength(times, p[..|p| - 1]);
      DurationIsSlowest(times, p[|p| - 1]);
    }
  }

  /** With every time positive, a path costs at least one of its crossings plus one per other crossing. */
  lemma {:induction false} CostAtLeastStepAndRest(times: seq<nat>, p: seq<seq<nat>>, j: nat)
    requires AllTimed(times, p) && j < |p| && forall i :: 0 <= i < |times| ==> times[i] >= 1
    ensures PathCost(times, p) >= Duration(times, p[j]) + |p| - 1
    decreases |p|
  {
    var front := p[..|p| - 1];
    if j == |p| - 1 {
      CostAtLeastLength(times, front);
    } else {
      assert front[j] == p[j];
      CostAtLeastStepAndRest(times, front, j);
      DurationIsSlowest(times, p[|p| - 1]);
    }
  }

  /**
   * When the whole party fits on the bridge and every time is positive, a
   * cheapest solution is a single crossing.
   */
  lemma CheapestIsOneCrossing(times: seq<nat>, maxGroup: int, p: seq<seq<nat>>)
    requires 1 <= |times| <= maxGroup && forall i :: 0 <= i < |times| ==> times[i] >= 1
    requires Reaches(times, maxGroup, p)
    requires forall q :: Reaches(times, maxGroup, q) ==> AllTimed(times, q) && PathCost(times, p) <= PathCost(times, q)
    ensures |p| == 1
  {
    var n := |times|;
    AllAtOnce(times, maxGroup);
    var slowest := Duration(times, Range(n));
    DurationIsSlowest(times, Range(n));
    var m :| 0 <= m < n && times[Range(n)[m]] == slowest;
    EveryoneCrosses(times, maxGroup, p, m);
    var j :| 0 <= j < |p| && m in p[j];
    DurationIsSlowest(times, p[j]);
    CostAtLeastStepAndRest(times, p, j);
  }

  /** A larger group limit allows every solution a smaller one allows. */
  lemma CapacityMonotone(times: seq<nat>, maxGroup: int, larger: int, p: seq<seq<nat>>)
    requires maxGroup <= larger && Reaches(times, maxGroup, p)
    ensures Reaches(times, larger, p)
  {
    var start := Initial(|times|);
    forall j | 0 <= j < |p| ensures LegalGroup(|times|, larger, Replay(start, p[..j]), p[j]) {
      assert LegalGroup(|times|, maxGroup, Replay(start, p[..j]), p[j]);
    }
  }
}
