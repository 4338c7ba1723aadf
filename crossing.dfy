/**
 * The state graph of the bridge-and-torch puzzle, as the solver searches it.
 *
 * A state is a pair of a mask and a side. Bit `i` of the integer mask is
 * set when person `i` stands on the start bank; here the mask is the set of
 * those indices, so flipping bit `i` becomes `Toggle(mask, i)`. Side 0
 * (torch on the start bank) is `Start` and side 1 is `Far`.
 */
module Crossing {
  import opened Combinatorics

  datatype Side = Start | Far

  /** `1 - side`. */
  function Opposite(side: Side): Side
  {
    if side == Start then Far else Start
  }

  datatype State = State(mask: set<nat>, side: Side)

  /** The people `0 .. n-1`: the bits set in the all-ones mask of width `n`. */
  function Everyone(n: nat): (r: set<nat>)
    ensures forall i: nat :: i in r <==> i < n
  {
    if n == 0 then {} else Everyone(n - 1) + {n - 1}
  }

  /** The start state: everybody and the torch on the start bank. */
  function Initial(n: nat): State
  {
    State(Everyone(n), Start)
  }

  /** The target state: nobody left on the start bank, torch on the far bank. */
  const Goal: State := State({}, Far)

  /** Person `i` stands on the same bank as the torch. */
  predicate OnTorchSide(s: State, i: nat)
  {
    (i in s.mask) <==> (s.side == Start)
  }

  /** `people` lists, in ascending order, exactly those of the `n` people beside the torch. */
  ghost predicate BesideTorch(n: nat, s: State, people: seq<nat>)
  {
    Increasing(people) && forall i: nat :: i in people <==> i < n && OnTorchSide(s, i)
  }

  /**
   * A group that may cross from `s`: an increasing index tuple of 1 to
   * `maxGroup` people, all among the `n` people and all beside the torch.
   */
  predicate LegalGroup(n: nat, maxGroup: int, s: State, g: seq<nat>)
  {
    1 <= |g| <= maxGroup && Increasing(g) &&
    forall j :: 0 <= j < |g| ==> g[j] < n && OnTorchSide(s, g[j])
  }

  /** The torch's bank after `k` crossings that began on the start bank. */
  function TorchAfter(k: nat): Side
  {
    if k == 0 then Start else Opposite(TorchAfter(k - 1))
  }

  /** The torch is on the start bank exactly after an even number of crossings. */
  lemma {:induction false} TorchAlternates(k: nat)
    ensures TorchAfter(k) == if k % 2 == 0 then Start else Far
  {
    if k > 0 {
      TorchAlternates(k - 1);
    }
  }

  /** A group whose crossing time is defined: non-empty, every index a person. */
  predicate Timed(times: seq<nat>, g: seq<nat>)
  {
    |g| >= 1 && forall j :: 0 <= j < |g| ==> g[j] < |times|
  }

  /** Flipping the bit of person `i`: they change banks. */
  function Toggle(mask: set<nat>, i: nat): set<nat>
  {
    if i in mask then mask - {i} else mask + {i}
  }

  /** The mask after XOR-ing in the bit of every member of `g`, in order. */
  function Toggled(mask: set<nat>, g: seq<nat>): set<nat>
  {
    if g == [] then mask else Toggle(Toggled(mask, g[..|g| - 1]), g[|g| - 1])
  }

  /** The state after group `g` crosses from `s`. */
  function Cross(s: State, g: seq<nat>): State
  {
    State(Toggled(s.mask, g), Opposite(s.side))
  }

  /**
   * The time of a crossing: a group crosses at the pace of its
   * slowest member.
   */
  function Duration(times: seq<nat>, g: seq<nat>): nat
    requires Timed(times, g)
  {
    if |g| == 1 then times[g[0]]
    else
      var rest := Duration(times, g[1..]);
      if times[g[0]] >= rest then times[g[0]] else rest
  }

  /** The crossing time is the time of the group's slowest member. */
  lemma {:induction false} DurationIsSlowest(times: seq<nat>, g: seq<nat>)
    requires Timed(times, g)
    ensures forall j :: 0 <= j < |g| ==> times[g[j]] <= Duration(times, g)
    ensures exists j :: 0 <= j < |g| && times[g[j]] == Duration(times, g)
    decreases |g|
  {
    if |g| > 1 {
      var tail := g[1..];
      DurationIsSlowest(times, tail);
      assert forall j :: 1 <= j < |g| ==> g[j] == tail[j - 1];
      var k :| 0 <= k < |tail| && times[tail[k]] == Duration(times, tail);
      if times[g[0]] < Duration(times, tail) {
        assert times[g[k + 1]] == Duration(times, g);
      }
    }
  }

  /** The state reached from `s` when the groups of `p` cross one after another. */
  function Replay(s: State, p: seq<seq<nat>>): State
  {
    if p == [] then s else Cross(Replay(s, p[..|p| - 1]), p[|p| - 1])
  }

  /** Every crossing of `p` is a legal move from the state it starts in. */
  predicate PathLegal(n: nat, maxGroup: int, s: State, p: seq<seq<nat>>)
  {
    forall j :: 0 <= j < |p| ==> LegalGroup(n, maxGroup, Replay(s, p[..j]), p[j])
  }

  /** Every group of `p` has a crossing time. */
  predicate AllTimed(times: seq<nat>, p: seq<seq<nat>>)
  {
    forall j :: 0 <= j < |p| ==> Timed(times, p[j])
  }

  /** The total time of the crossings of `p`. */
  function PathCost(times: seq<nat>, p: seq<seq<nat>>): nat
    requires AllTimed(times, p)
  {
    if p == [] then 0 else PathCost(times, p[..|p| - 1]) + Duration(times, p[|p| - 1])
  }

  /**
   * `p` is a solution of the puzzle: legal crossings that take everybody
   * and the torch from the start bank to the far bank.
   */
  predicate Reaches(times: seq<nat>, maxGroup: int, p: seq<seq<nat>>)
  {
    PathLegal(|times|, maxGroup, Initial(|times|), p) && Replay(Initial(|times|), p) == Goal
  }

  /** Legal groups are timed, so a legal path has a cost. */
  lemma LegalIsTimed(times: seq<nat>, maxGroup: int, s: State, p: seq<seq<nat>>)
    requires PathLegal(|times|, maxGroup, s, p)
    ensures AllTimed(times, p)
  {
  }

  /**
   * XOR-ing in the bits of distinct people flips exactly their bits and
   * leaves every other bit alone.
   */
  lemma {:induction false} ToggledFlips(mask: set<nat>, g: seq<nat>)
    requires Increasing(g)
    ensures forall i :: i in Toggled(mask, g) <==> ((i in mask) != (i in g))
  {
    if g != [] {
      var front, last := g[..|g| - 1], g[|g| - 1];
      IncreasingPairs(g);
      PairsIncreasing(front);
      ToggledFlips(mask, front);
      assert g == front + [last];
      assert last !in front by {
        forall j | 0 <= j < |front| ensures front[j] != last {
          assert g[j] < g[|g| - 1];
        }
      }
    }
  }

  /**
   * A crossing moves exactly the members of the group to the other bank
   * and carries the torch across.
   */
  lemma CrossMovesGroup(s: State, g: seq<nat>)
    requires Increasing(g)
    ensures Cross(s, g).side != s.side
    ensures forall i :: i in Cross(s, g).mask <==> ((i in s.mask) != (i in g))
  {
    ToggledFlips(s.mask, g);
  }

  /** A legal crossing keeps every index among the `n` people. */
  lemma CrossStaysInside(n: nat, maxGroup: int, s: State, g: seq<nat>)
    requires s.mask <= Everyone(n) && LegalGroup(n, maxGroup, s, g)
    ensures Cross(s, g).mask <= Everyone(n)
  {
    ToggledFlips(s.mask, g);
  }

  /** Replaying `[g] + p` is crossing with `g` and then replaying `p`. */
  lemma {:induction false} ReplayPrepend(s: State, g: seq<nat>, p: seq<seq<nat>>)
    ensures Replay(s, [g] + p) == Replay(Cross(s, g), p)
    decreases |p|
  {
    if p == [] {
      assert ([g] + p)[..0] == [];
    } else {
      var front := p[..|p| - 1];
      assert ([g] + p)[..|p|] == [g] + front;
      ReplayPrepend(s, g, front);
    }
  }

  /** The cost of `[g] + p` is the time of `g` plus the cost of `p`. */
  lemma {:induction false} PathCostPrepend(times: seq<nat>, g: seq<nat>, p: seq<seq<nat>>)
    requires Timed(times, g) && AllTimed(times, p)
    ensures AllTimed(times, [g] + p)
    ensures PathCost(times, [g] + p) == Duration(times, g) + PathCost(times, p)
    decreases |p|
  {
    if p != [] {
      var front := p[..|p| - 1];
      assert ([g] + p)[..|p|] == [g] + front;
      PathCostPrepend(times, g, front);
    } else {
      assert ([g] + p)[..0] == [];
    }
  }

  /** Replaying one more crossing of `p` is crossing from where the shorter replay ends. */
  lemma ReplayStep(s: State, p: seq<seq<nat>>, j: nat)
    requires j < |p|
    ensures Replay(s, p[..j + 1]) == Cross(Replay(s, p[..j]), p[j])
  {
    assert p[..j + 1][..j] == p[..j];
  }

  /** A legal first crossing followed by a legal path is a legal path. */
  lemma PathLegalPrepend(n: nat, maxGroup: int, s: State, g: seq<nat>, p: seq<seq<nat>>)
    requires LegalGroup(n, maxGroup, s, g)
    requires PathLegal(n, maxGroup, Cross(s, g), p)
    ensures PathLegal(n, maxGroup, s, [g] + p)
  {
    var q := [g] + p;
    forall j | 0 <= j < |q| ensures LegalGroup(n, maxGroup, Replay(s, q[..j]), q[j]) {
      if j == 0 {
        assert q[..0] == [];
      } else {
        assert q[..j] == [g] + p[..j - 1];
        ReplayPrepend(s, g, p[..j - 1]);
      }
    }
  }

  /** A legal path followed by a legal crossing is a legal path. */
  lemma PathLegalAppend(n: nat, maxGroup: int, s: State, p: seq<seq<nat>>, g: seq<nat>)
    requires PathLegal(n, maxGroup, s, p)
    requires LegalGroup(n, maxGroup, Replay(s, p), g)
    ensures PathLegal(n, maxGroup, s, p + [g])
    ensures Replay(s, p + [g]) == Cross(Replay(s, p), g)
  {
    var q := p + [g];
    assert q[..|p|] == p;
    forall j | 0 <= j < |q| ensures LegalGroup(n, maxGroup, Replay(s, q[..j]), q[j]) {
      if j < |p| {
        assert q[..j] == p[..j];
      }
    }
  }

  /** Dropping the last crossing of a legal path leaves a legal path. */
  lemma PathLegalFront(n: nat, maxGroup: int, s: State, p: seq<seq<nat>>)
    requires p != [] && PathLegal(n, maxGroup, s, p)
    ensures PathLegal(n, maxGroup, s, p[..|p| - 1])
    ensures LegalGroup(n, maxGroup, Replay(s, p[..|p| - 1]), p[|p| - 1])
  {
    var front := p[..|p| - 1];
    forall j | 0 <= j < |front| ensures LegalGroup(n, maxGroup, Replay(s, front[..j]), front[j]) {
      assert front[..j] == p[..j];
    }
  }

  /**
   * Every crossing carries the torch over, so after an even number of them
   * it is back where it began.
   */
  lemma {:induction false} SideAfter(s: State, p: seq<seq<nat>>)
    ensures Replay(s, p).side == if |p| % 2 == 0 then s.side else Opposite(s.side)
  {
    if p != [] {
      SideAfter(s, p[..|p| - 1]);
    }
  }

  /**
   * The finite state space: every mask over the people `0 .. n-1`, with the
   * torch on either bank (`2^n * 2` states).
   */
  ghost function States(n: nat): (r: set<State>)
    ensures forall s :: s in r <==> s.mask <= Everyone(n)
  {
    if n == 0 then
      var r := {State({}, Start), State({}, Far)};
      assert forall s: State :: s.mask <= Everyone(0) ==> s in r by {
        forall s: State | s.mask <= Everyone(0) ensures s in r {
          assert forall i :: i in s.mask ==> i < 0;
          assert s.mask == {};
          if s.side == Start {
            assert s == State({}, Start);
          } else {
            assert s == State({}, Far);
          }
        }
      }
      r
    else
      var smaller := States(n - 1);
      var r := smaller + set s | s in smaller :: State(s.mask + {n - 1}, s.side);
      assert forall s: State :: s.mask <= Everyone(n) ==> s in r by {
        forall s: State | s.mask <= Everyone(n) ensures s in r {
          var without := State(s.mask - {n - 1}, s.side);
          assert without.mask <= Everyone(n - 1);
          assert without in smaller;
          if n - 1 in s.mask {
            assert s == State(without.mask + {n - 1}, without.side);
          } else {
            assert s == without;
          }
        }
      }
      r
  }
}
