# Oink, verified in Dafny

Oink solves parity games: finite directed graphs without dead ends, in which each vertex has an owner (Even or Odd) and
a priority, and a cycle is won by the parity of its highest priority. This project models the solvers of Oink and the
code they rest on, and proves that what they report is true.

All parts share one specification (`ParityGames.dfy`). A *correct solution* of a subgame gives each vertex a winner and
each winner a strategy, such that the winner's set is closed under its strategy and under all moves of the loser, and
the highest priority of every closed walk that remains has the winner's parity. That this means winning every infinite
play, and that it determines the winners, is proved once (`SolutionWinsPlays`, `LimitExists`, `WinnersUnique`).

| part | files | main results |
|---|---|---|
| solutions and Oink's flushing | `Solutions`, `EdgeCounting`, `Oink` | the solved part stays a union of dominions, attractor-closed; preprocessing, flushing and solving the rest add up |
| fixpoint iteration with justifications | `FixpointJustification`, `FPJInvariant`, `FPJTermination`, `FPJRestarts`, `FPJCutoff`, `FPJStack`, `FPJDivergence`, `FPJCapacity`, `FPJSolver` | whenever the loop is left with a stack that was large enough, the report is correct; exactly on which inputs the loop ends, and that the stack is large enough, unless the disabled vertex 0 is entangled with enabled ones; inputs on which the loop never ends or the stack is too small; a cutoff that decides every input |
| fixpoint iteration with freezing | `FreezingFixpoint`, `FreezingRuns`, `FPISolver`, `FPIParallel` | total correctness, also of the parallel solver under every interleaving of its tasks |
| Zielonka's recursion | `LinkedNodes`, `Zielonka`, `AttractorCounting`, `ZLKPPSolver`, `ZLKPPRun` | correctness of the standard variant; restoration of the shared current game and the trap property for all three variants |
| priority promotion | `PPRegions`, `PPAttraction`, `PPPromotion`, `PPSolver` | total correctness, with stale lower regions, promotions and resets |
| solution verifier | `VerifierSearch`, `Verifier` | acceptance if and only if the solution is correct |
| Lace | `SplitDeque`, `SplitDequeProgress` | over every interleaving each task is executed exactly once; thieves that find work get it, the owner shares when asked, and no reached state is a dead end |
| succinct progress measures | `AdaptiveCounters` | the flat comparison is the order on adaptive counters; `prog_tmp` gives the least measure above |
| progress measures for both players | `ProgressMeasures`, `TSPMSolver` | mixed-radix arithmetic; every successful lift raises a measure although the bounds shrink |
| the game arrays | `Permutations`, `GameArrays`, `GameRenaming`, `SortedSolving`, `PriorityTransforms`, `InEdges` | sorting and permuting in place, with a solver in between; priority transformations keep or flip winners and give the smallest priorities that do; exact transposition |

## How the model relates to the program

* Objects and arrays that the program updates in place are classes and arrays here, and loops are loops. Solver methods
  are proved against functions or predicates of the state, and what the program promises is proved about these.
* A game is a value with two edge lists per vertex; `ins` is the transpose of `outs` with multiplicities, which is what
  `BuildInArray` constructs (`TransposedGame`).
* Bitsets are boolean arrays, and the `parity` bitsets that some solvers precompute are the parity of the priority.
  Integers are unbounded. Arrays that the program does not initialise (the strategies of FPJ, FPI and ZLKPP) have
  arbitrary contents; booleans that it does not initialise (`reached_bottom_cur` and `reached_bottom_opo` in
  `ZLKPPSolver::run`) are arbitrary.
* Exceptions of the verifier are the values of a `Verdict`. A `LOGIC_ERROR` is a branch shown to be unreachable.
* Solvers run on the game that is left after flushing: `disabled` and `solved` agree, vertices are sorted by priority,
  and there is at least one vertex.
* `min_dominion`, the precisions and the `reached_bottom` flags of ZLKPP are modelled; C++ rounds towards zero, so that
  `(max_priority - 1) % 2` is -1 at priority 0, and no vertex has that owner (`Remainder`).
* The owner and the thieves of Lace are atomic steps over the packed word, the flags and the `thief` fields, in any
  interleaving. The owner may itself steal and run other work while it waits.
* The parallel passes of FPI are atomic reads and writes of the marks, one per step; a task may act on a value that
  another task has changed since it was read.

## What the proofs show about the program

* `FPJSolver::runSeq` can loop forever. `if (i > blockstart) i = blockstart` (fpj.cpp:263) may continue at vertex 0
  although it is disabled, because the first block starts at 0 whether or not vertex 0 is enabled. The disabled vertex is
  then evaluated (fpj.cpp:288-327), which happens exactly on the inputs that are not `Benign`
  (`NeverEvaluatesDisabledIffBenign`). Whenever the loop is left, and the stack had room for every push, the report is
  correct (`RunCorrect`, `RunSeq`).
  - It does harm only if vertex 0 is `Drawn`, that is, if the distractions that the first block settles on by itself
    drive it to be a distraction as well. A drawn vertex 0 that would not be drawn if it were enabled is taken back by
    the very vertices that rest on it, and the loop never gets past the first block (`Trapped`, `TrappedRunsOn`). An
    ordinary case is a winning self-loop at vertex 0, which preprocessing solves: `LoopNeverTerminates` has three
    vertices.
  - Otherwise the loop is left if vertex 0 can move to no enabled vertex (`Stranded`), or if all enabled vertices that can
    move to it lie beyond the first block and have owners who lose by that move (`Deferring`). So the run ends if and
    only if the input is not trapped (`EndsIff`), unless vertex 0 is `Entangled`: drawn, also if it were enabled, with
    enabled successors and with enabled predecessors that are not of that kind. All these conditions can be computed
    before the call.
  - On entangled inputs the run may end (`StackOverruns`) or not. `NeverTerminates` gives a game with five vertices on
    which it does not: a flip of a higher block resets its own reason by way of vertex 0. That vertex 0 has been won by
    its owner, and counts as such when it is a distraction, does not help by itself: `KnotNeverTerminates` has six
    vertices. It does if no vertex of the first block can move there (`SolvedEnds`). Every input is decided by a number
    of turns that depends on the number of vertices only (`CutoffDecides`).
* The stack of `runSeq` (fpj.cpp:200) has one entry a vertex, and `push` does not check that (uintqueue.hpp:82-85). That is
  enough as long as vertex 0 is not entangled, or its enabled predecessors all have the owner for whom the move there is
  bad once vertex 0 is a distraction (`Contained`, `StackAlwaysFits`), which after preprocessing is so whenever the owner
  of vertex 0 is not its parity (`SolvedContained`). Otherwise one propagation may reset vertices that it has just flipped
  and that are still on the stack, which never happens on benign inputs (`FlippedStay`). `StackOverruns` gives inputs of
  `k + 6` vertices that need `2k` entries; with 13 vertices that is one too many (`ThirteenVertices`). On such an input the
  run is left in the model with a larger stack, and the program has no defined behaviour; `RunSeq` reports an overflow.
  `2n` entries would suffice on every input (`TwiceAlwaysFits`).
* `FPISolver` has no such problem: the same restart is always to the first priority, and disabled vertices are skipped.
* `Game::minmax` leaves the vertices in descending order of priority while `is_ordered` stays true. The flag is right only
  if all priorities are equal (`MinMaxOrdered`); a later `sort` would not reorder the vertices.
* The comment at the end of `get_nodes_of_max_priority` (zlkpp.cpp:137) says that the result is sorted; it is in
  descending order. Nothing depends on it.
* Once `counts` has shrunk, `TSPMSolver::Prog` may skip over a smaller measure that would do (`ProgOvershoots`): exactly
  if a digit below one that overflows is kept (`ProgLeastIff`). It never gives a measure that is too low (`ProgRises`).
* The comments of `lift` call the loop of the maximising player a minimum (tspm.cpp:223); the code computes a maximum.

## Model

| member | source | states |
|---|---|---|
| `ParityGames.SolutionWinsPlays` | oink/src/verifier.cpp:44-84 | a solution that is closed under its strategies and whose closed walks are won wins every infinite play from each vertex it claims: the parity of the highest priority seen infinitely often is the claimed winner |
| `ParityGames.LimitExists` | oink/src/verifier.cpp:182-195 | every infinite play has a highest priority that it sees infinitely often, so each play has a winner |
| `ParityGames.WinnersUnique` | oink/src/verifier.cpp:35-227 | two correct solutions of one subgame agree on the winner of every vertex, whatever their strategies |
| `Solutions.AttractOne` | oink/src/oink.cpp:397-425 | a union of dominions stays one when a vertex is added that its owner can move into it, or that cannot avoid it |
| `Solutions.RestHasNoDeadEnds` | oink/src/oink.cpp:397-425 | what lies outside an attractor-closed solved part has no dead ends |
| `Solutions.Combine` | oink/src/oink.cpp:374-425 | an attractor-closed partial solution and a correct solution of the rest together are a correct solution of the whole game |
| `OinkFramework.Oink.constructor` | oink/src/oink.cpp:33-52 | after construction `outcount` of every vertex is its number of edges to vertices that are not solved, and the queue is empty |
| `OinkFramework.Oink.Solve` | oink/src/oink.cpp:374-395 | marks exactly one vertex as solved and disabled, keeps its strategy only if its owner wins, and queues it |
| `OinkFramework.Oink.AttractTo` | oink/src/oink.cpp:406-424 | taking one vertex off the queue solves its unsolved predecessors exactly as the counters demand, and the solved part stays a union of dominions |
| `OinkFramework.Oink.Flush` | oink/src/oink.cpp:397-425 | after flushing, the solved part is a union of dominions with valid strategies and closed under both attractors, earlier results are kept, and `outcount` of an unsolved vertex is its number of edges to unsolved vertices |
| `OinkFramework.Oink.SolveSelfloops` | oink/src/oink.cpp:280-315 | every winning self-loop and every losing self-loop without alternative is solved, with the right winner and strategy, and the solved part is left sound, flushed and attractor-closed; the result is the number of these loops |
| `OinkFramework.GameSolved` | oink/src/oink.cpp:486-513 | tells exactly whether all vertices are solved |
| `OinkFramework.StartsSound` | oink/src/oink.cpp:33-52 | on an unsolved game without dead ends a new Oink has a sound and flushed solved part, and its counters are right |
| `OinkFramework.NewOink` | oink/src/oink.cpp:33-52 | a new Oink on an unsolved game without dead ends meets what flushing and every solver require |
| `FixpointJustification.FirstGoodMeaning` | oink/src/fpj.cpp:293-325 | the one-step rule picks an enabled successor that is good for the owner if there is one, and none otherwise |
| `FixpointJustification.Propagate` | oink/src/fpj.cpp:239-258 | with room on the stack, working it off ends, with an empty stack, and leaves strategies and block alone |
| `FPJInvariant.PropagateMeaning` | oink/src/fpj.cpp:239-258 | afterwards no justified vertex rests on a reset or queued one, and only justified vertices were reset |
| `FPJInvariant.PropagateWithin` | oink/src/fpj.cpp:239-258 | only vertices that rest, however indirectly, on the queued ones are reset |
| `FPJInvariant.FlipCycle` | oink/src/fpj.cpp:222-263 | setting the found distractions and resetting closes no cycle of justifications that is lost |
| `FPJInvariant.SettleCycle` | oink/src/fpj.cpp:264-278 | justifying a whole block without distractions closes no cycle of justifications that is lost |
| `FPJInvariant.StepInv` | oink/src/fpj.cpp:210-342 | every turn of the loop keeps the three invariants: justified values agree with the one-step rule, all that a justification rests on has the same winner and every cycle of justifications is won by it, and no justified vertex rests, however indirectly, on an unjustified vertex of a lower block |
| `FPJInvariant.InitialInv` | oink/src/fpj.cpp:193-208 | the invariants hold at the start for any content of the uninitialised strategy array |
| `FPJInvariant.RunCorrect` | oink/src/fpj.cpp:186-349 | on every enabled subgame and after any number of turns, as long as the stack has room: if the loop is left, what is reported is a correct solution with every enabled vertex in it |
| `FPJInvariant.WinningSolves` | oink/src/fpj.cpp:344-349 | when every enabled vertex is justified, the values and strategies handed to Oink are a correct solution |
| `FPJTermination.FlipWeight` | oink/src/fpj.cpp:222-263 | a round with distractions strictly grows the distraction set of its block and leaves higher blocks alone: the lexicographic weight over the blocks drops |
| `FPJTermination.NeverEvaluatesDisabledIffBenign` | oink/src/fpj.cpp:259-293 | a run never evaluates a disabled vertex if and only if the input is benign: vertex 0 is enabled, or the first pass over the first block finds no distraction |
| `FPJStack.StackAlwaysFits` | oink/src/fpj.cpp:200-258 | the stack of n entries never holds more than n vertices, after any number of turns and at every moment of every propagation, on every input on which vertex 0 is not entangled, or every enabled predecessor of vertex 0 has the owner for whom the move there is bad once vertex 0 is a distraction and vertex 0 has no winning loop |
| `FPJStack.SolvedContained` | oink/src/fpj.cpp:200-258 | after preprocessing that is always so if the owner of the disabled vertex 0 is not its parity |
| `FPJStack.FlippedStay` | oink/src/fpj.cpp:227-258 | on benign inputs no propagation resets a vertex that it has just flipped |
| `FPJStack.TwiceAlwaysFits` | oink/src/fpj.cpp:200-258 | on every input 2n entries suffice |
| `FPJStack.CutoffFits` | oink/src/fpj.cpp:200-258 | on every input and for any number of entries: if the stack has not run out of them within the cutoff, it never will |
| `FPJCapacity.StackOverruns` | oink/src/fpj.cpp:200-258 | for every k, a sound and flushed input of k + 6 vertices on which the loop is left, but one propagation needs 2k entries of the stack and resets k vertices that it has just flipped |
| `FPJCapacity.ThirteenVertices` | oink/src/fpj.cpp:200-258 | its instance with 13 vertices, where 13 entries do not suffice |
| `FPJRestarts.TameFinishes` | oink/src/fpj.cpp:186-349 | on every tame input the loop is left within an explicit number of turns: benign ones, those where the distractions that the first block settles on by itself do not drive the disabled vertex 0 to be one, and those where vertex 0 has no winning loop of its own and either can move to no enabled vertex, or every enabled vertex that can move to it lies beyond the first block and has an owner who loses by that move |
| `FPJRestarts.TrappedRunsOn` | oink/src/fpj.cpp:186-349 | on every trapped input no number of turns leaves the loop, whatever else is disabled and whatever the strategy array held: not benign, vertex 0 is driven to be a distraction, and it would not be if it were enabled |
| `FPJRestarts.EndsIff` | oink/src/fpj.cpp:186-349 | the run ends if and only if the input is not trapped, for every input on which vertex 0 is not entangled |
| `FPJRestarts.StrandedEndsIff` | oink/src/fpj.cpp:259-293 | if the disabled vertex 0 has no enabled successor, the run ends if and only if the input is benign, or there is no edge from 0 to 0, or the owner of 0 is not its parity |
| `FPJRestarts.DeferringEndsIff` | oink/src/fpj.cpp:259-293 | if every enabled vertex with an edge to the disabled vertex 0 lies beyond the first block and its owner is the parity of vertex 0, the run ends if and only if the input is benign, or vertex 0 is not driven to be a distraction, or there is no edge from 0 to 0, or the owner of 0 is not its parity |
| `FPJRestarts.AloofEndsIff` | oink/src/fpj.cpp:259-293 | the same if no enabled vertex has an edge to the disabled vertex 0 |
| `FPJRestarts.SolvedEnds` | oink/src/fpj.cpp:259-293 | with a sound and flushed solved part that contains vertex 0, whose owner is not its parity, the run ends if no enabled vertex of the first block has an edge to vertex 0 |
| `FPJCutoff.CutoffDecides` | oink/src/fpj.cpp:202-342 | on every input: if the loop has not been left after (n + 2)^(4n + 3) turns, it never will be |
| `FPJDivergence.LoopNeverTerminates` | oink/src/fpj.cpp:259-293 | a game of three vertices whose vertex 0, a winning loop, is solved soundly and flushed: no number of turns solves the other two vertices |
| `FPJDivergence.NeverTerminates` | oink/src/fpj.cpp:259-293 | a game of five vertices with an entangled vertex 0, whose solved part is sound and flushed, on which no number of turns leaves the loop |
| `FPJDivergence.KnotNeverTerminates` | oink/src/fpj.cpp:259-293 | the last condition matters: a game of six vertices with a sound and flushed solved part and a vertex 0 whose owner is not its parity, on which no number of turns leaves the loop |
| `FPJSolver.ResetPredecessors` | oink/src/fpj.cpp:243-256 | the loop over the incoming edges pushes onto the array exactly what the model resets, and stops exactly if a push finds no room |
| `FPJSolver.ResetAll` | oink/src/fpj.cpp:239-258 | the loop over the stack of n entries refines the recursive propagation, and stops exactly if that needs more of them |
| `FPJSolver.FinishBlock` | oink/src/fpj.cpp:222-278 | marking, resetting and justifying in place amounts to the end of a block in the model, unless the propagation needs more than the stack has |
| `FPJSolver.TakeTurn` | oink/src/fpj.cpp:210-342 | one turn on the arrays is one step of the machine, and is not completed exactly if it needs more than the stack has |
| `FPJSolver.Iterate` | oink/src/fpj.cpp:200-342 | the loop over the arrays, cursors and stack refines the machine turn by turn, and reports an overflow exactly if some turn within the budget needs more than one entry a vertex |
| `FPJSolver.RunSeq` | oink/src/fpj.cpp:186-349 | a run that is left makes every vertex solved, with a correct solution of what was unsolved; it runs out of the stack exactly if some turn needs more than n entries, which never happens on contained inputs; a tame input is finished within the bound, a trapped one never, and a run that is cut off at the cutoff would never end; a run that is not left has not touched Oink |
| `FPJSolver.SolveGame` | oink/src/oink.cpp:486-513 | if the loop is left, self-loop preprocessing, flushing and this solver add up to a correct solution of the whole game; otherwise preprocessing has left over a sound and flushed solved part, which is not tame if the bound was reached, and not contained if the stack was too small |
| `FPJSolver.SolveNew` | oink/src/oink.cpp:517-648 | the same from a new Oink on any sorted game without dead ends of which nothing is solved |
| `FreezingFixpoint.RestartInv` | oink/src/fpi.cpp:131-172 | a pass that found distractions, with the freeze that follows, keeps the invariant: held values are right and rest only on vertices that no lower restart touches, and every cycle among held vertices is won |
| `FreezingFixpoint.QuietInv` | oink/src/fpi.cpp:295-299 | a pass that finds nothing makes its block stable and keeps everything else |
| `FreezingFixpoint.LostWalkHeld` | oink/src/fpi.cpp:131-172 | a cycle of resting vertices that is lost can only run among frozen vertices and distractions |
| `FreezingFixpoint.StableSolves` | oink/src/fpi.cpp:316-320 | when all blocks are stable, the values and strategies reported are a correct solution of the enabled subgame |
| `FreezingRuns.RestartGrows` | oink/src/fpi.cpp:295-311 | a restart at priority p strictly grows the distractions of priority p and leaves those of every higher priority as they are |
| `FreezingRuns.NextDecreases` | oink/src/fpi.cpp:293-311 | every turn of the main loop, in whichever order its pass evaluates the block, decreases one bounded number |
| `FreezingRuns.RunsEnd` | oink/src/fpi.cpp:293-311 | no run of the main loop takes more than 2^n * (d + 2) turns, for n vertices and highest priority d |
| `FreezingRuns.RunSolves` | oink/src/fpi.cpp:293-320 | every run that leaves the loop reports a correct solution of the enabled subgame |
| `FPISolver.LocateBlocks` | oink/src/fpi.cpp:267-288 | `p_start` and `p_len` locate exactly the vertices of each priority |
| `FPISolver.UpdateIsPass` | oink/src/fpi.cpp:78-129 | evaluating a block in order is one of the passes of the model: each new distraction rests on values that were there before or on earlier distractions, and if there is none the block is stable |
| `FPISolver.FPISolver.UpdateBlock` | oink/src/fpi.cpp:78-129 | the loop over the arrays refines the pass, and its result is the number of new distractions |
| `FPISolver.FPISolver.FreezeThawReset` | oink/src/fpi.cpp:131-172 | every enabled vertex of the range is frozen, thawed, reset or left as its own frozen level, mark and parity demand, and no other vertex changes |
| `FPISolver.FPISolver.Turn` | oink/src/fpi.cpp:295-311 | one iteration on the arrays is one turn of the machine |
| `FPISolver.FPISolver.Loop` | oink/src/fpi.cpp:290-311 | the main loop ends on every input and leaves a correct solution of the enabled subgame |
| `FPISolver.RunSeq` | oink/src/fpi.cpp:256-342 | total correctness on every input: the solver ends, everything is solved, earlier results are kept, and what was unsolved gets a correct solution |
| `FPISolver.SolveGame` | oink/src/oink.cpp:486-513 | with self-loop preprocessing and flushing, a correct solution of the whole game; earlier results are kept, and losers get no strategy |
| `FPISolver.SolveNew` | oink/src/oink.cpp:517-648 | the same from a new Oink on any sorted game without dead ends of which nothing is solved: a correct solution |
| `FPIParallel.LeavesCover` | oink/src/fpi.cpp:34-76 | the recursive splitting processes every index of the range in exactly one leaf and nothing outside it |
| `FPIParallel.LeavesApart` | oink/src/fpi.cpp:34-76 | two different leaves never touch the same 64-bit word |
| `FPIParallel.ParallelFreeze` | oink/src/fpi.cpp:57-76 | however the leaves below the block are interleaved, the freeze comes out the same |
| `FPIParallel.StepOfInv` | oink/src/fpi.cpp:34-129 | every atomic read or write of the tasks that evaluate a block, in any interleaving, keeps what makes its outcome a pass |
| `FPIParallel.ConcurrentPass` | oink/src/fpi.cpp:34-129 | whatever the schedule, evaluating a whole block by unsynchronised tasks is a pass, although values read may be out of date |
| `FPIParallel.ParallelTurn` | oink/src/fpi.cpp:198-217 | a turn of the parallel main loop, under any interleaving, is a turn of the machine, so the parallel solver ends and is correct with the sequential one |
| `Verifier.LocalChecks` | oink/src/verifier.cpp:49-84 | the local checks all pass if and only if the claimed regions are closed, losers cannot leave them and no loser has a strategy |
| `Verifier.CheckVertex` | oink/src/verifier.cpp:56-83 | each exception has its exact meaning, and a vertex raises the one whose meaning holds of it: a winner without strategy, with an invalid move or a move out of its dominion, a loser that can leave, or one that cannot but has a strategy; none exactly if it is locally right |
| `VerifierSearch.RoundTrip` | oink/src/verifier.cpp:182-195 | all vertices of a completed component lie on one closed walk through its root |
| `VerifierSearch.Refutes` | oink/src/verifier.cpp:197-215 | a cyclic component whose highest priority is the loser's refutes the solution |
| `VerifierSearch.MemberClear` | oink/src/verifier.cpp:182-224 | otherwise no member of the component lies on a losing cycle of this priority, so marking it done loses nothing |
| `VerifierSearch.CompleteInv` | oink/src/verifier.cpp:182-226 | completing a component keeps the invariant of the search |
| `VerifierSearch.RetreatInv` | oink/src/verifier.cpp:173-180 | leaving a vertex that is not a root, with its `low` lowered, keeps the invariant of the search |
| `Verifier.SearchFrom` | oink/src/verifier.cpp:114-226 | one bounded search either finds a losing cycle, and then there is one, or shows that its start is on no losing cycle of smaller indices |
| `Verifier.CheckCycles` | oink/src/verifier.cpp:92-227 | restricting each search to indices up to its start and skipping vertices that are done misses no losing cycle and reports no false one |
| `Verifier.Verify` | oink/src/verifier.cpp:35-230 | for full games the verifier accepts if and only if every vertex is solved, the solution is correct and losers have no strategy; otherwise if and only if the checked part is a partial solution; any other verdict is that of the least vertex that has a fault, and a losing cycle is reported if and only if there is no such vertex and there is one |
| `LinkedNodes.UnlinkRing` | oink/src/zlkpp.cpp:69-79 | unlinking a vertex leaves a sorted circular list of the others, its first node included, and touches no link of vertices outside |
| `LinkedNodes.RelinkUndoes` | oink/src/zlkpp.cpp:80-92 | relinking a vertex undoes the unlinking, first node included |
| `LinkedNodes.RingUnique` | oink/src/zlkpp.cpp:93-117 | a set of vertices and the links outside it determine the list |
| `LinkedNodes.SortedRing` | oink/src/zlkpp.cpp:107-117 | linking a sorted vector circularly gives the list of its elements |
| `ZLKPPSolver.ZLKPPSolver.constructor` | oink/src/zlkpp.cpp:219-242 | at the start the list, the bitmap and the count represent all vertices and the scratch arrays are clean |
| `ZLKPPSolver.ZLKPPSolver.GetAttractor` | oink/src/zlkpp.cpp:17-67 | extends the given vertices to exactly the attractor of the player in the current game, with attracting strategies, by counting; only attracted vertices of the player get a new strategy, and the scratch arrays are left clean |
| `ZLKPPSolver.ZLKPPSolver.RemoveNodes` | oink/src/zlkpp.cpp:69-79 | the vertices leave list, bitmap and count |
| `ZLKPPSolver.ZLKPPSolver.RestoreNodes` | oink/src/zlkpp.cpp:80-92 | restoring in reverse order gives back exactly the list from which the vertices were removed |
| `ZLKPPSolver.ZLKPPSolver.GetCurNodes` | oink/src/zlkpp.cpp:93-106 | the vertices of the current game in increasing order |
| `ZLKPPSolver.ZLKPPSolver.SetCurNodes` | oink/src/zlkpp.cpp:107-118 | rebuilds list, bitmap and count for a larger set without touching links outside it |
| `ZLKPPSolver.ZLKPPSolver.GetNodesOfMaxPriority` | oink/src/zlkpp.cpp:119-138 | exactly the current vertices of the given priority, each with a strategy into the current game |
| `Zielonka.AttractDominion` | oink/src/zlkpp.cpp:140-160 | attracting to a dominion gives a dominion |
| `Zielonka.LostBelow` | oink/src/zlkpp.cpp:140-160 | what the opponent wins below the attractor of the top vertices is a dominion of the whole current game |
| `Zielonka.NothingAdded` | oink/src/zlkpp.cpp:140-160 | stopping is sound: if the opponent attractor adds no vertex, what is left after removing the opponent's region is won by the player of the highest priority |
| `Zielonka.KernelSolves` | oink/src/zlkpp.cpp:171-207 | a kernel and the opponent's dominion around it are a correct solution of the current game |
| `Zielonka.StepResult` | oink/src/zlkpp.cpp:140-160 | one step removes a dominion of the opponent, and one that adds no vertex to it leaves a kernel |
| `ZLKPPSolver.ZLKPPSolver.DoStep` | oink/src/zlkpp.cpp:140-160 | one step removes exactly an attractor of the opponent to the vertices that the recursion returned, none of which has the highest priority, and reports whether it is larger than they are; with standard precision it is a dominion, and an unchanged game is a kernel |
| `ZLKPPSolver.ZLKPPSolver.SolveWarsaw` | oink/src/zlkpp.cpp:180-191 | the Warsaw variant only ever removes opponent attractors |
| `ZLKPPSolver.ZLKPPSolver.SolveLiverpool` | oink/src/zlkpp.cpp:161-170 | so does the Liverpool variant, over all its recursive calls |
| `ZLKPPSolver.ZLKPPSolver.Solve` | oink/src/zlkpp.cpp:171-207 | for all three variants: bitmap, list, count and first node are left as found, and the returned vertices, in increasing order, are what remains after removing opponent attractors, a trap for the opponent; in the standard variant the returned set and the strategies are a correct solution of the current game |
| `ZLKPPRun.Precision` | oink/src/zlkpp.cpp:251-253 | the precision is the least 2^k - 1 that is not below the number of vertices |
| `ZLKPPRun.RemoveDisabled` | oink/src/zlkpp.cpp:244-247 | the current game starts as the enabled vertices |
| `ZLKPPRun.Report` | oink/src/zlkpp.cpp:257-269 | walking the list backwards reports every current vertex exactly once, with the right winner |
| `ZLKPPRun.Run` | oink/src/zlkpp.cpp:209-280 | everything is solved, in all variants the reported region is a trap for the opponent, and in the standard variant the report is a correct solution |
| `ZLKPPRun.SolveGame` | oink/src/oink.cpp:486-513 | with self-loop preprocessing and flushing, the standard variant gives a correct solution of the whole game |
| `ZLKPPRun.SolveNew` | oink/src/oink.cpp:517-648 | the same from a new Oink on any sorted game without dead ends of which nothing is solved |
| `PPRegions.CyclesJoin` | oink/src/pp.cpp:97-127 | the cycles of two quasi-dominions stay won in their union if one is left for the other only at its top priority |
| `PPAttraction.JoinQuasi` | oink/src/pp.cpp:36-91 | attracting a vertex keeps a region a quasi-dominion |
| `PPSolver.PPSolver.Attract` | oink/src/pp.cpp:36-91 | attraction ends with a region that is a quasi-dominion under its strategies, maximal, and whose top vertices know their moves inside; higher regions do not change |
| `PPSolver.PPSolver.ResetRegion` | oink/src/pp.cpp:132-145 | exactly the vertices still in the region go back to their own priorities, however stale its list is |
| `PPSolver.PPSolver.SetupRegion` | oink/src/pp.cpp:151-209 | a freshly set up region is a maximal quasi-dominion, and empty exactly if the result is false |
| `PPPromotion.ExitParity` | oink/src/pp.cpp:253-267 | the opponent can leave a closed region only to higher regions of the same parity |
| `PPPromotion.OpenBelow` | oink/src/pp.cpp:239-242 | an open region has vertices below it, so the cursor never runs off the end |
| `PPSolver.PPSolver.AllHeld` | oink/src/pp.cpp:229-242 | if each of the top vertices of a set up region moves inside it or cannot leave it downwards, no vertex of the region lets the opponent leave to a lower region, so the LOGIC_ERROR branch is unreachable |
| `PPSolver.PPSolver.GetRegionStatus` | oink/src/pp.cpp:229-269 | -2 exactly if the region is open in the subgame, -1 only for a region without exits, and otherwise a higher region of the same parity to which some vertex of the opponent can leave, and the lowest such region |
| `PPPromotion.PromotedInv` | oink/src/pp.cpp:96-127 | moving a closed region up to the lowest region its opponent can reach gives a quasi-dominion that awaits attraction |
| `PPSolver.PPSolver.Promote` | oink/src/pp.cpp:96-127 | a promotion strictly enlarges the target region and leaves all higher regions as they are |
| `PPSolver.PPSolver.RegionDominion` | oink/src/pp.cpp:211-227 | a closed region without exits is a dominion of its player, whatever is solved already |
| `PPSolver.PPSolver.SetDominion` | oink/src/pp.cpp:211-227 | setting and flushing a dominion keeps the solved part a sound, attractor-closed union of dominions and strictly shrinks the unsolved part |
| `PPPromotion.WeightPromoted` | oink/src/pp.cpp:332-376 | an enlarged higher region outweighs giving up all regions below it |
| `PPPromotion.WeightBounded` | oink/src/pp.cpp:332-376 | the weight of all regions is bounded |
| `PPSolver.PPSolver.Chain` | oink/src/pp.cpp:348-371 | a chain of promotions ends, with progress in the unsolved count or in the weight |
| `PPSolver.PPSolver.Round` | oink/src/pp.cpp:332-376 | every turn of the outer loop makes progress in the measure or solves everything |
| `PPSolver.PPSolver.Solve` | oink/src/pp.cpp:332-376 | the loops end with no vertex unsolved, and the solved part sound |
| `PPSolver.Run` | oink/src/pp.cpp:306-384 | total correctness: the solver ends with a correct solution of the whole game, strategies of both players included |
| `PPSolver.SolveGame` | oink/src/oink.cpp:486-513 | the same after self-loop preprocessing |
| `PPSolver.SolveNew` | oink/src/oink.cpp:517-648 | the same from a new Oink on any sorted game without dead ends of which nothing is solved |
| `SplitDeque.NextInv` | oink/src/lace.h:556-828 | every atomic step of the owner and of any thief keeps the invariant: slots below the tail are claimed, [tail, split) holds tasks nobody has started, and the rest is private; what the steps achieve is said by the lemmas of `SplitDequeProgress` |
| `SplitDeque.RunInv` | oink/src/lace.h:556-828 | the invariant holds after every interleaving of steps |
| `SplitDeque.StartedAtMostOnce` | oink/src/lace.h:556-828 | over every interleaving no task is started twice, and a task is done only if it was started |
| `SplitDeque.RunExactlyOnce` | oink/src/lace.h:556-828 | when the owner has synced all it spawned, every task was executed exactly once |
| `SplitDeque.SyncedWhenDone` | oink/src/lace.h:655-812 | in every run a task leaves the deque only when it is done: run by the owner itself in SYNC, or marked completed by its thief before the owner goes on |
| `SplitDeque.StealableUntouched` | oink/src/lace.h:556-624 | in every run, every slot between tail and split holds a spawned task that nobody has started and no thief is working on |
| `SplitDeque.ThievesApart` | oink/src/lace.h:569-577 | in no run do two thieves hold the same slot |
| `SplitDeque.WaitedFor` | oink/src/lace.h:626-653 | in every run, whenever the owner waits for a task that is not completed, some thief is working on it |
| `SplitDeque.ThiefFinishes` | oink/src/lace.h:570-579 | in every run, a thief that has claimed a slot marks it completed after a bounded number of its own steps, without touching the owner |
| `SplitDeque.WaitEnds` | oink/src/lace.h:626-653 | in every run, a waiting owner can be released within four steps of the thieves |
| `SplitDequeProgress.StealSucceeds` | oink/src/lace.h:557-590 | in every run, an idle thief that sees work and is not disturbed claims exactly the slot at the tail, runs its task once to the end and completes the slot, and changes nothing else |
| `SplitDequeProgress.StealAsks` | oink/src/lace.h:557-593 | a thief that finds nothing between tail and split leaves the request to move the split, and nothing else |
| `SplitDequeProgress.StealLost` | oink/src/lace.h:569-585 | a thief whose compare-and-swap comes too late gives up and changes nothing |
| `SplitDequeProgress.AttemptEnds` | oink/src/lace.h:557-593 | in every run, every attempt to steal can be brought to its end by its thief alone, within a known number of steps |
| `SplitDequeProgress.SpawnShares` | oink/src/lace.h:708-743 | in every run, an undisturbed spawn adds its task on top and touches no other; after all was stolen it shares exactly that task, on a request it shares at least half of the private part and settles the request, and otherwise it shares nothing |
| `SplitDequeProgress.SyncAlone` | oink/src/lace.h:783-828 | in every run, the undisturbed sync of an unclaimed slot runs its task once and takes it off, within an exact number of steps; a shared slot is first taken back with the upper half of what could be stolen, and on a request at least half of the rest is shared |
| `SplitDequeProgress.ShrinkHalves` | oink/src/lace.h:599-607 | in every run, taking back slots first leaves the thieves the lower half of what the owner saw |
| `SplitDequeProgress.ShrinkSettles` | oink/src/lace.h:607-623 | in every run, the owner then finds that all is stolen, keeps its split, or, if the thieves have come past it, leaves them the lower half of what is still there |
| `SplitDequeProgress.WorkIsVisible` | oink/src/lace.h:619-648 | in every run, while application code runs, thieves can see that something can be stolen, and when they see that all is stolen it is |
| `SplitDequeProgress.NestReturns` | oink/src/lace.h:639-655 | work that a waiting sync steals runs on a floor of its own, below which it cannot sync, and leads back to where the sync waits |
| `SplitDequeProgress.RunsCanEnd` | oink/src/lace.h:556-828 | every reached state can be continued until everything spawned has been synced, and then every task has been run exactly once |
| `AdaptiveCounters.FlatIsLevels` | oink/src/sspm.cpp:320-348 | comparing the flat encodings position by position is the lexicographic order on levels of bit strings with 0s below the empty string below 1s |
| `AdaptiveCounters.OrderTotal` | oink/src/sspm.cpp:320-348 | the order is antisymmetric, and only equal measures compare equal |
| `AdaptiveCounters.OrderTransitive` | oink/src/sspm.cpp:320-348 | the truncated order is transitive |
| `AdaptiveCounters.Compare` | oink/src/sspm.cpp:320-348 | `compare` decides the order truncated at `pindex` on the flat encoding |
| `AdaptiveCounters.BuriedIsLeast` | oink/src/sspm.cpp:83-94 | burying all bits below `pindex` gives the least measure that is equal up to it |
| `AdaptiveCounters.TruncTmp` | oink/src/sspm.cpp:83-94 | `trunc_tmp` gives the least measure that is equal up to `pindex` |
| `AdaptiveCounters.BumpedIsLeast` | oink/src/sspm.cpp:145-213 | increasing the last possible position to the next bit, followed by zeros, gives the least measure above |
| `AdaptiveCounters.OnesAreHighest` | oink/src/sspm.cpp:185-191 | above a counter of ones at the root there is only Top |
| `AdaptiveCounters.ProgTmp` | oink/src/sspm.cpp:140-214 | `prog_tmp` turns any well-formed counter into the least measure strictly above it in the order truncated at `pindex`, and leaves Top alone |
| `AdaptiveCounters.TopIffNoneAbove` | oink/src/sspm.cpp:137-214 | the least measure above is Top exactly when no counter is strictly above |
| `AdaptiveCounters.LeastAboveMonotone` | oink/src/sspm.cpp:137-214 | the least measure above is monotone |
| `AdaptiveCounters.LeastAboveUnique` | oink/src/sspm.cpp:137-214 | the least measure above is unique, so `prog_tmp` is fully determined by its contract |
| `Permutations.Hit` | oink/src/game.cpp:828-867 | every position is the target of some position of a permutation |
| `GameArrays.GameArrays.SwapVertices` | oink/src/game.cpp:837-865 | one swap exchanges two vertices in all the parallel arrays |
| `GameArrays.GameArrays.UnsafePermute` | oink/src/game.cpp:805-868 | following the cycles in place ends, moves vertex i to position mapping[i] in all arrays, renames edges and strategies, and leaves the mapping the identity |
| `GameArrays.GameArrays.Permute` | oink/src/game.cpp:785-800 | the same, and the order flag is set exactly if the priorities are in ascending order |
| `GameArrays.GameArrays.Sort` | oink/src/game.cpp:737-780 | the vertices end up in ascending order of priority, moved by the inverse of the mapping that is returned |
| `GameArrays.MovedBack` | oink/src/game.cpp:737-868 | moving by a permutation and then by its inverse restores everything |
| `GameArrays.SortAndRestore` | oink/src/game.cpp:737-800 | `sort(mapping)` followed by `permute(mapping)` restores the original game and solution |
| `GameRenaming.MovedGame` | oink/src/game.cpp:805-868 | moving the vertices in the arrays gives an isomorphic game |
| `GameRenaming.RenamedValid` | oink/src/game.cpp:805-868 | an isomorphic game is well formed, its incoming edges still the transpose of the outgoing ones |
| `GameRenaming.RenamedCorrectIff` | oink/src/game.cpp:805-868 | a solution is correct if and only if the renamed one is correct for the renamed game |
| `SortedSolving.RestoredCorrect` | oink/src/game.cpp:737-868 | a correct solution of the sorted game, moved back with its vertices, is a correct solution of the original game, which is restored |
| `SortedSolving.SortSolveRestore` | oink/src/tools/solve.cpp:345-449 | sorting the vertices, solving the sorted game in its own arrays and permuting back leaves the original game with a correct solution |
| `PriorityTransforms.Inflate` | oink/src/game.cpp:870-900 | ascending priorities of the same parities, so the winner of no vertex set changes, and as many different ones as there are vertices, which is the result; they are the smallest of that kind at every vertex |
| `PriorityTransforms.InflateUnique` | oink/src/game.cpp:870-900 | no two vertices share a priority after inflating |
| `PriorityTransforms.Compress` | oink/src/game.cpp:902-927 | the smallest ascending priorities of the same parities at every vertex; the result is the number of different ones |
| `PriorityTransforms.CompressGapless` | oink/src/game.cpp:902-927 | no number between the lowest and the highest new priority is unused |
| `PriorityTransforms.Renumber` | oink/src/game.cpp:929-960 | the smallest ascending priorities of the same parities that are equal where the old ones are, at every vertex; the result is the number of different ones |
| `PriorityTransforms.RenumberFaithful` | oink/src/game.cpp:929-960 | vertices share a priority exactly if they did before |
| `PriorityTransforms.InflateLeast` | oink/src/game.cpp:870-900 | no other ascending priorities of the same parities, all different, are smaller anywhere |
| `PriorityTransforms.CompressLeast` | oink/src/game.cpp:902-927 | no other ascending priorities of the same parities are smaller anywhere |
| `PriorityTransforms.RenumberLeast` | oink/src/game.cpp:929-960 | no other ascending priorities of the same parities that keep apart what was apart and together what was together are smaller anywhere |
| `PriorityTransforms.SameTop` | oink/src/game.cpp:870-960 | the parity of the highest priority of every nonempty vertex set is kept |
| `PriorityTransforms.SameSolutions` | oink/src/game.cpp:870-960 | exactly the same solutions are correct before and after |
| `PriorityTransforms.EvenOdd` | oink/src/game.cpp:962-984 | every owner and every parity is swapped; the priorities are the smallest ascending ones of these parities that are equal where the old ones are |
| `PriorityTransforms.FlippedSolutions` | oink/src/game.cpp:962-984 | a solution is correct if and only if it is correct, with the winners swapped, after swapping owners and parities |
| `PriorityTransforms.MinMax` | oink/src/game.cpp:986-1005 | the smallest descending priorities of the same parities that are equal where the old ones are, at every vertex |
| `PriorityTransforms.MinMaxLeast` | oink/src/game.cpp:986-1005 | no other descending priorities of the same parities and classes are smaller anywhere |
| `PriorityTransforms.LowestBecomesTop` | oink/src/game.cpp:986-1005 | the parity of the lowest priority of a vertex set becomes that of its highest |
| `PriorityTransforms.MinToMax` | oink/src/game.cpp:986-1005 | solutions of the game decided by lowest priorities are exactly the solutions of the new game decided by highest ones |
| `PriorityTransforms.MinMaxOrdered` | oink/src/game.cpp:986-1005 | the new priorities are still in ascending order, as `is_ordered` continues to claim, if and only if all the old ones were equal |
| `InEdges.BuildInArray` | oink/src/game.cpp:1219-1268 | the list of incoming edges of v has each u exactly as often as u has edges to v, ends with -1, and the lists fill the array one after the other without gaps |
| `InEdges.SegmentsFill` | oink/src/game.cpp:1252-1258 | the segments take up exactly as many entries as there are vertices and edges |
| `InEdges.TransposedGame` | oink/src/game.cpp:1219-1268 | with these arrays the game satisfies what every solver here requires of its edges |
| `ProgressMeasures.LessMeaning` | oink/src/tspm.cpp:36-51 | `pm_less` decides the order of the truncated measures as mixed-radix numbers with Top as the greatest, even when one of the two exceeds bounds that have shrunk |
| `ProgressMeasures.ProgAdds` | oink/src/tspm.cpp:88-124 | with digits in range, Prog adds one at a priority of the player and nothing otherwise, clears what is below, and gives Top exactly on overflow |
| `ProgressMeasures.ProgMonotone` | oink/src/tspm.cpp:88-124 | Prog is monotone in the truncated measure |
| `ProgressMeasures.ProgLeast` | oink/src/tspm.cpp:88-124 | Prog gives the least measure that is high enough as far as the priority can tell |
| `ProgressMeasures.ProgRises` | oink/src/tspm.cpp:88-124 | under bounds that have shrunk, Prog still gives a measure within them and never one that is too low |
| `ProgressMeasures.ProgLeastIff` | oink/src/tspm.cpp:88-124 | under bounds that have shrunk, Prog gives the least measure that is high enough if and only if it gives Top, or every digit below an overflowing one overflows as well or is zero and receives no carry |
| `ProgressMeasures.ProgOvershoots` | oink/src/tspm.cpp:88-124 | there are bounds that have shrunk and a measure after which Prog at priority 1 does not give the least measure for Even that is high enough |
| `TSPMSolver.TSPMSolver.constructor` | oink/src/tspm.cpp:358-382 | all measures start at zero and each bound is the number of enabled vertices of its priority |
| `TSPMSolver.TSPMSolver.PmLess` | oink/src/tspm.cpp:36-51 | the loop over the digits computes the comparison of the model |
| `TSPMSolver.TSPMSolver.Prog` | oink/src/tspm.cpp:88-124 | the loop computes digits and carry of the sum in place, touching only the digits of its player |
| `TSPMSolver.TSPMSolver.RaiseMax` | oink/src/tspm.cpp:222-241 | the owner's measure meets the demand of every enabled successor, its own row included as it was when the self-loop was looked at; if it rose, then to exactly what one of them demands; and it does rise if the vertex has a self-loop, the parity of its owner and a measure that is not Top |
| `TSPMSolver.TSPMSolver.RaiseMin` | oink/src/tspm.cpp:244-277 | the chosen successor makes the lowest demand, the measure meets it, and if it rose, then to exactly that |
| `TSPMSolver.TSPMSolver.Lift` | oink/src/tspm.cpp:169-299 | a lift reports success exactly if it raised a measure; it then strictly raised one of the two measures of the vertex, lowered neither, changed no other vertex, and each bound is still the number of vertices of its priority whose measure is not Top; it always succeeds at a self-loop of the owner's parity below Top |
| `TSPMSolver.SelfRises` | oink/src/tspm.cpp:222-241 | a self-loop of a vertex whose owner has the parity of its priority demands more than its measure is, bounds shrunk or not |
| `TSPMSolver.LiftsBounded` | oink/src/tspm.cpp:169-299 | in every sequence of successful lifts, with bounds shrinking or not, there are at most as many as the measures of all vertices have room for |

## Left out

- FPJSolver.RunSeq: the endless loop is cut off by a turn budget, since a run need not end, and a push onto a full stack is an outcome of its own, after which nothing is said; the contract says what it means to be left, cut off or out of stack within each of the bounds.
- FPJInvariant.RunCorrect: the machine has a stack without limit; that a run of the program is one of the machine needs `RunFits`, as in `RunSeq`.
- FPJRestarts.EndsIff: does not cover an entangled vertex 0. There, whether the run ends depends on which justifications of higher blocks happen to rest on vertex 0 at the moment it is reset, and hence on the order in which blocks are found and given up, not on a fixpoint of the input; both outcomes occur (`NeverTerminates`, `KnotNeverTerminates`, `StackOverruns`), and `CutoffDecides` tells them apart by a bounded run.
- FPJStack.StackAlwaysFits: does not cover an entangled vertex 0 with an enabled predecessor that would gain by moving to it, for the same reason; there `CutoffFits` decides by a bounded run.
- FPJSolver.SolveGame: whether it finishes is said of the part that preprocessing leaves over, whose vertex 0 decides.
- ZLKPPSolver.ZLKPPSolver.SolveWarsaw: restoration and trap property only; the guarantee that the precisions give, that small dominions end on the right side, is not modelled. The published argument is for loops that go on until nothing is returned; these stop as soon as the attractor adds nothing (zlkpp.cpp:156, 181-189), and what that means for inexact intermediate results is open.
- ZLKPPSolver.ZLKPPSolver.SolveLiverpool: restoration and trap property only, for the same reason.
- PPSolver.PPSolver.SetupRegion: base priority promotion always resets, so the branch without reset and the bitset `Z` are not modelled.
- GameArrays.GameArrays.Sort: `std::sort` is any procedure that sorts the mapping; the call without a mapping, vertex labels and the case without incoming edges are not modelled.
- GameArrays.GameArrays.SwapVertices: nor are labels and absent incoming-edge arrays in any other operation on the arrays, as they would only add further columns.
- GameArrays.GameArrays.UnsafePermute: likewise.
- GameArrays.GameArrays.Permute: likewise.
- GameArrays.SortAndRestore: likewise.
- InEdges.BuildInArray: the rebuild flag and the early return when the arrays exist are not modelled.
- SplitDeque.NextInv: sequentially consistent steps of one deque; the fence only orders steps. Dropping tasks, new frames, `TOGETHER`, random leapfrogging and worker management are left out, a spawn on a full deque is not enabled, and a task run by its owner counts as done when it starts.
- AdaptiveCounters.ProgTmp: for at least one bit and `pindex` up to the depth `h`; the lifting loop of SSPM around it, `compare_test` and the commented-out caps are left out.
- TSPMSolver.TSPMSolver.Lift: for vertices with an enabled successor, as the solver's subgames have. The main loop, `canlift`, `update` and the correctness of the final measures are left out.
- FPIParallel.ConcurrentPass: tasks evaluate vertices in any order and interleaving, which includes the order within a leaf; that every task is executed exactly once is the subject of `SplitDeque`.
- Verifier.Verify: log output and the counter of checked strategies are left out.
- OinkFramework.Oink.Flush: for a game that starts unsolved or with a sound, flushed partial solution; the branch of `Oink::run` for partial solutions and the bottom-SCC mode, in which `disabled` and `solved` differ, are left out.
- `solveSingleParity` and `solveTrivialCycles`: further clients of the same flushing.
- `runSeqGreedy`: the greedy variant of FPJ.
- PPP, RR, DP, RRDP, NPP, tangle learning, QPT, MSPM, SPM, PSI and the remaining Zielonka implementations.
- Parsing, printing, logging, tracing, timing, the random game generator and the solver registry.
