# Bridge-and-torch solver, modelled and verified in Dafny

The repository solves the bridge-and-torch puzzle. `n` people stand on the
start bank of a river, each with a crossing time, and there is one torch.
A crossing takes a group of `1 .. max_group` people who stand beside the
torch to the other bank, together with the torch. The crossing lasts as
long as its slowest member. The goal is to get everybody, and the torch, to
the far bank in the least total time.

The solver is `min_crossing_with_path(times, max_group)`. It runs Dijkstra's
algorithm over the states `(mask, side)`:
- bit `i` of `mask` says that person `i` is still on the start bank;
- `side` says where the torch is.

The search keeps a binary heap with lazily skipped stale entries, a
cost-so-far map `dist` and a predecessor map `prev`. When it pops the
target, it walks the predecessors back, reverses the list, and replays the
crossings into a step list of `(participants, direction, t)` records. The
same function appears twice, identical line for line: `torchgraphics.py:6-56` and
`app.py:7-57`. It is modelled once; the second copy is the first shifted by
one line. Everything else in the repository is GUI and animation.

The model is imperative where the source is:
- `Solver.Solve` / `Solver.Explore` hold the search loop, over `dist` and
  `prev` maps and a queue sequence;
- `Solver.TorchSidePeople`, `Solver.ApplyGroup`, `Solver.WalkBack` and
  `Solver.Describe` are the loops that collect, flip, walk back and replay;
- `MinQueue.PopMin` is the pop.

Each method is proved against specification functions, chiefly:
- `Crossing.Cross`, `Crossing.Toggled`, `Crossing.Duration` and
  `Crossing.Replay`;
- `Crossing.PathLegal` and `Crossing.PathCost`;
- `Combinatorics.Combinations`;
- `Solver.Described`.

Their properties are proved as lemmas. The search is proved correct, not
only safe:
- `Solve` answers `NoSolution` exactly when no sequence of legal crossings
  solves the puzzle;
- otherwise its steps replay legally from the start to the goal, their
  directions alternate starting with `"->"`, every time is the slowest
  participant's, the total is the sum of the times, and no solution is
  faster.

Termination is proved from the finiteness of the state space. Ghost
bookkeeping records the order in which states are expanded.

Modules:
- `Combinatorics` (combinatorics.dfy): increasing index tuples and the
  combination generator standing in for `itertools.combinations`.
- `Crossing` (crossing.dfy): states, legal groups, crossings, paths and
  their costs.
- `MinQueue` (min_queue.dfy): the priority queue's pop.
- `Search` (search.dfy): the search invariants and the Dijkstra
  correctness lemmas.
- `Solver` (solver.dfy): the solver itself.
- `PuzzleFacts` (puzzle_facts.dfy): when a solution exists, and what the
  optimum is when everybody fits on the bridge.

Representation choices:
- The bitmask is a `set<nat>` of the people on the start bank, and XOR with
  `1 << i` is `Toggle`.
- `side` 0/1 is `Start`/`Far`, and the directions `"->"`/`"<-"` are
  `Forward`/`Backward`.
- `(None, [])` is `NoSolution`, and `(dist[target], steps)` is
  `Solved(total, steps)`.

Not every input has a solution, contrary to what one might expect. With
`max_group == 1` and two or more people, the solver returns `(None, [])`:
somebody must always bring the torch back, so at most one person is ever
on the far bank (`PuzzleFacts.SoloCrossingsNeverFinish`).
`PuzzleFacts.Solvable` gives the exact condition: at least one person, and
either `max_group >= 2` or a single person with `max_group >= 1`.

## Model

| member | source | states |
|---|---|---|
| Solver.Solve | torchgraphics.py:6-56 | The result is `NoSolution` iff no legal path reaches the goal. A solution's steps replay legally from the start to the goal. Step `j` has direction `->` for even `j` and `<-` for odd `j`, and its `t` is the slowest participant's time. The total is the sum of the step times and is no more than the cost of any solution. |
| Solver.Explore | torchgraphics.py:11-56 | The search loop terminates. Either it stops at the goal, with the goal's known cost no more than any legal path ending at an unexpanded state, or its queue runs empty and no legal path reaches the goal. |
| Solver.TorchSidePeople | torchgraphics.py:38-42 | The list holds exactly the people beside the torch (bit set when the torch is at the start, clear when it is at the far bank), in strictly ascending order. |
| Solver.ApplyGroup | torchgraphics.py:46-48 | Flipping the members' bits one by one gives `Toggled(mask, group)`, whose meaning `Crossing.ToggledFlips` states. |
| Solver.Relax | torchgraphics.py:45-55 | When `cost + t` beats the known cost of the new state (or there is none), `dist`, `prev` and the queue are updated with that cost, the predecessor and group, and a new entry; otherwise nothing changes. The search invariant is kept, costs only go down, and afterwards the crossing is relaxed. |
| Solver.RelaxAll | torchgraphics.py:44-55 | After relaxing every group of the list, each of them is relaxed, the invariant holds and costs have only gone down. |
| Solver.Expand | torchgraphics.py:38-55 | After the loops over group sizes `1 .. min(max_group, people)` and their combinations, every legal crossing out of the expanded state has been tried, the invariant holds and costs have only gone down. |
| Solver.CombinationsLegal | torchgraphics.py:43-44 | Every combination of `k <= max_group` people beside the torch is a legal group. |
| Solver.LegalIsCombination | torchgraphics.py:43-44 | Every legal group is among the combinations of its size, so the loops miss no move. |
| Solver.SizeDone | torchgraphics.py:43-55 | After the combinations of size `k`, every legal group of at most `k` people has been tried. |
| Solver.ExpansionDone | torchgraphics.py:43-55 | Once the sizes up to `min(max_group, people)` are done, every crossing out of every expanded state has been tried. |
| Solver.WalkBack | torchgraphics.py:19-25 | Following `prev` from the target terminates. The reversed list is a legal path from the start to the goal whose cost is exactly `dist[target]`. |
| Solver.Describe | torchgraphics.py:26-36 | The step list equals `Described(times, path)`; the replayed mask and side follow `Replay` along the way. |
| Solver.Heading | torchgraphics.py:31 | The direction is `->` exactly when the torch is on the start bank, `<-` otherwise. |
| Solver.DescribedSteps | torchgraphics.py:29-33 | The description has one step per crossing with the same participants. Step `j`'s time is the slowest participant's, and its direction is `->` for even `j` and `<-` for odd `j`. |
| Solver.TotalTimeIsPathCost | torchgraphics.py:30-37 | The sum of the reported times equals the cost of the path they describe, so `dist[target]` is that sum. |
| Solver.Finish | torchgraphics.py:18-37 | From a consistent tree with optimal goal cost, the answer is `Solved(dist[target], steps)` with the full solution contract of `Solve`. |
| MinQueue.PopMin | torchgraphics.py:15 | Pops an entry of least cost. The remaining entries are the others, with their multiplicities. |
| Search.Launch | torchgraphics.py:11-13 | The initial heap, `dist` and empty `prev` satisfy the search invariant, with nothing expanded. |
| Search.PopStale | torchgraphics.py:16-17 | Skipping a popped entry whose cost exceeds the known cost keeps the invariant. |
| Search.PopFresh | torchgraphics.py:15-17 | A popped entry that is not stale carries exactly the known cost of a state not yet expanded. Marking that state expanded keeps the invariant. |
| Search.PopGoal | torchgraphics.py:18 | When the target is popped live, its known cost is no more than any legal path to a state not yet expanded. |
| Search.PoppedIsOptimal | torchgraphics.py:14-18 | A least-cost queue entry is a lower bound on the cost of every legal path ending at an unexpanded state. |
| Search.FrontierOnPath | torchgraphics.py:14-55 | Along any legal path from the start, either its end is known at no more than the path's cost, or some unexpanded known state is. |
| Search.ExhaustedMeansUnreachable | torchgraphics.py:56 | When the heap is empty, no legal path reaches the target, so `(None, [])` is right. |
| Search.Improve | torchgraphics.py:52-55 | Lowering `dist` of the new state, recording `prev` and pushing the entry keeps the invariant and lowers only that state's cost. |
| Search.TreeImproves | torchgraphics.py:53-54 | After the update, `dist` and `prev` still form a tree of recorded legal crossings rooted at the start. |
| Search.RecordsImprove | torchgraphics.py:54 | The new `prev` entry is the expanded state and the group that produce the new cost; other records still hold. |
| Search.FrontierImproves | torchgraphics.py:55 | After the push, every state known and not expanded still has exactly one live entry. |
| Search.TreeGrows | torchgraphics.py:14-17 | Expanding a known state other than the goal keeps the tree invariant. |
| Search.RecordedGrows | torchgraphics.py:14-17 | A state's recorded predecessor stays valid, expanded before it, when one more state is expanded last. |
| Search.FrontierAfterPop | torchgraphics.py:15-17 | After removing the live entry of the state being expanded, the queue invariant holds with the popped cost as the new floor. |
| Search.RelaxedStays | torchgraphics.py:52-53 | A tried crossing stays tried while costs only decrease and expanded states keep theirs. |
| Crossing.States | torchgraphics.py:8-10 | The states whose mask lies within the people `0 .. n-1` (`ALL`) form a finite set, holding exactly those states; it bounds the number of expansions. |
| Search.FewerLeft | torchgraphics.py:14 | Each expansion leaves fewer unexpanded states, which with the queue length makes the loop terminate. |
| Combinatorics.Combinations | torchgraphics.py:44 | Every combination has exactly `k` entries, all drawn from the list; there is one empty combination and none longer than the list. |
| Combinatorics.CombinationsIncreasing | torchgraphics.py:44 | Combinations of an increasing list are strictly increasing tuples. |
| Combinatorics.CombinationsComplete | torchgraphics.py:44 | Every increasing tuple drawn from an increasing list is among the combinations of its length. |
| Combinatorics.CombinationsSorted | torchgraphics.py:44 | The combinations come out in strictly ascending lexicographic order, each once. |
| Crossing.Everyone | torchgraphics.py:8 | `ALL` has exactly the bits `0 .. n-1`. |
| Crossing.ToggledFlips | torchgraphics.py:46-48 | XOR-ing in the bits of distinct people flips exactly those bits and leaves every other bit unchanged. |
| Crossing.CrossMovesGroup | torchgraphics.py:46-50 | A crossing moves exactly the group's members to the other bank and flips the torch's side. |
| Crossing.CrossStaysInside | torchgraphics.py:46-50 | A legal crossing only touches bits `0 .. n-1`. |
| Crossing.DurationIsSlowest | torchgraphics.py:45 | The crossing time is at least every member's time and equals some member's time: the maximum. |
| Crossing.TorchAlternates | torchgraphics.py:31 | The torch is on the start bank after an even number of crossings and on the far bank after an odd number. |
| Crossing.SideAfter | torchgraphics.py:49 | Every crossing flips the side, so after `k` crossings the side is flipped iff `k` is odd. |
| Crossing.ReplayPrepend | torchgraphics.py:21-25 | Replaying a crossing followed by a path is replaying the path from that crossing's end. |
| Crossing.PathCostPrepend | torchgraphics.py:21-25 | The cost of a crossing followed by a path is the crossing's time plus the path's cost. |
| Crossing.PathLegalPrepend | torchgraphics.py:21-25 | A legal crossing followed by a legal path from its end is a legal path. |
| PuzzleFacts.NoMovesNoSolution | torchgraphics.py:56 | With no people (`n == 0`) or `max_group < 1` no crossing is legal and no path reaches the goal, so the answer is `(None, [])`. |
| PuzzleFacts.SoloCrossingsNeverFinish | torchgraphics.py:56 | With `max_group <= 1` and two or more people no path reaches the goal. |
| PuzzleFacts.SoloHeadcount | torchgraphics.py:43-50 | With one-person crossings, the start bank holds `n` people when the torch is there and `n - 1` otherwise. |
| PuzzleFacts.EscortReaches | torchgraphics.py:43-50 | With `max_group >= 2`, person 0 escorting everybody else across is a solution. |
| PuzzleFacts.EscortRoundsReplay | torchgraphics.py:43-50 | After `k` escort rounds, exactly person 0 and the people above `k` are on the start bank, with the torch. |
| PuzzleFacts.EscortRound | torchgraphics.py:43-50 | Person 0 taking person `k` over and returning alone is legal after `k - 1` rounds, and leaves person 0 and those above `k` on the start bank with the torch. |
| PuzzleFacts.EscortThere | torchgraphics.py:43-50 | When persons 0 and `k` wait with the torch on the start bank, their crossing together is legal and takes both bits out of the mask. |
| PuzzleFacts.EscortBack | torchgraphics.py:43-50 | When person 0 is on the far bank with the torch, returning alone is legal and puts their bit back. |
| PuzzleFacts.LoneCrossing | torchgraphics.py:43-50 | A single person with `max_group >= 1` crosses in one step. |
| PuzzleFacts.Solvable | torchgraphics.py:56 | A solution exists iff `n >= 1`, `max_group >= 1`, and `max_group >= 2` or `n == 1`. |
| PuzzleFacts.EveryoneCrosses | torchgraphics.py:10 | Every person appears in some group of every solution. |
| PuzzleFacts.SlowestBound | torchgraphics.py:45 | Every solution takes at least as long as any one person's time. |
| PuzzleFacts.AllAtOnce | torchgraphics.py:43-45 | When `n <= max_group`, one crossing of everybody is a solution. It costs the slowest person's time, and no solution costs less. |
| PuzzleFacts.EverybodyAtOnce | torchgraphics.py:43-50 | When `n <= max_group`, the single crossing of everybody is legal and reaches the goal. |
| PuzzleFacts.RangeLegal | torchgraphics.py:38-44 | When `n <= max_group`, the group of everybody is a legal first crossing. |
| PuzzleFacts.RangeEmpties | torchgraphics.py:46-50 | Everybody crossing from the start leaves the start bank empty with the torch on the far bank. |
| PuzzleFacts.CheapestIsOneCrossing | torchgraphics.py:43-45 | When `n <= max_group` and all times are positive, every cheapest solution has exactly one step. |
| PuzzleFacts.CapacityMonotone | torchgraphics.py:43 | Raising `max_group` keeps every solution legal, so the optimum never grows. |

## Left out

- The GUI (`BridgeTorchApp` and `App`), the input parsing of `on_compute`, the text rendering, the animation (`animate_steps`, `animate_frame`, graphics.py) and the `__main__` blocks are not part of this model. They are tkinter widgets, dialogs, timers and floating-point drawing.
- Solver.Solve: `heapq` is modelled as a sequence whose pop takes some least-cost entry (`MinQueue.PopMin` takes the first). `heapq`'s tie-breaking between entries of equal cost, which compares the states, is not modelled. So the contract fixes the optimal total but not which of several optimal step lists is returned.
- Times are natural numbers; negative times are outside the model. The GUI parses any integer. With a negative time and two or more people, the search keeps finding cheaper round trips back to the start and does not terminate; with a single person it still stops.
- Integers are unbounded, as in Python. The bitmask is a set of indices rather than an integer, so `1 << n` never overflows in either.
- `itertools.combinations` is the recursive `Combinatorics.Combinations`. It produces the same tuples in the same (lexicographic) order, but as a list rather than a lazy iterator.
- `max(times[i] for i in group)` is the recursive function `Crossing.Duration` rather than a loop.
- The direction string is recomputed from the replayed side (`Solver.Heading`), as in the source. The replayed mask in `Solver.Describe` is kept, but the source never reads it either.
