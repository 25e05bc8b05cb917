/** The sequential solver by fixpoint iteration with justifications (FPJSolver::runSeq) on its arrays, from Oink to Oink.
    Its stack has one entry a vertex. A push that finds no room is an outcome of its own here; what the program does from
    there on is not defined. */
module FPJSolver {
  import opened ParityGames
  import opened Solutions
  import opened OinkFramework
  import opened FixpointJustification
  import opened FPJInvariant
  import opened FPJTermination
  import opened FPJRestarts
  import opened FPJCutoff
  import opened FPJStack

  /** The local variables of the loop, as a state of the machine. */
  ghost function Snapshot(i: nat, blockstart: nat, curParity: Player,
                          strategy: array<int>, justified: array<bool>, distraction: array<bool>,
                          q: seq<nat>, iterations: nat): State
    reads strategy, justified, distraction
  {
    State(i, blockstart, curParity, strategy[..], justified[..], distraction[..], q, iterations)
  }

  method OneStepWinner(g: Game, dis: array<bool>, distraction: array<bool>, v: nat) returns (winner: Player, str: int)
    requires g.Valid() && dis.Length == distraction.Length == g.Size() && v < g.Size()
    ensures str == FirstGood(g, dis[..], distraction[..], v, 0)
    ensures winner == OneStep(g, dis[..], distraction[..], v)
  {
    winner, str := 1 - g.owner[v], -1;
    var k := 0;
    while k < |g.outs[v]| && str == -1
      invariant k <= |g.outs[v]|
      invariant str == -1 ==> winner == 1 - g.owner[v]
      invariant str == -1 ==> FirstGood(g, dis[..], distraction[..], v, k) == FirstGood(g, dis[..], distraction[..], v, 0)
      invariant str != -1 ==> winner == g.owner[v] && str == FirstGood(g, dis[..], distraction[..], v, 0)
    {
      var to := g.outs[v][k];
      if !dis[to] {
        var winnerTo: Player := if distraction[to] then 1 - g.Parity(to) else g.Parity(to);
        if winnerTo == g.owner[v] {
          winner, str := g.owner[v], to;
        }
      }
      k := k + 1;
    }
  }

  /** One more predecessor of `v`. */
  lemma ResetsNext(g: Game, t: State, v: nat, k: nat, c: nat)
    requires Sized(g, t) && v < g.Size() && k < |g.ins[v]| && |t.q| <= c
    ensures var from := g.ins[v][k];
      var u := if t.justified[from] && (t.strategy[from] == -1 || t.strategy[from] == v) then Reset(t, from) else t;
      && Sized(g, u) && ResetIns(g, t, v, k) == ResetIns(g, u, v, k + 1)
      && (ResetFits(g, t, v, k, c) <==> ResetFits(g, u, v, k + 1, c)) && (|u.q| > c ==> !ResetFits(g, t, v, k, c))
  {
  }

  lemma ResetsNone(g: Game, t: State, v: nat, c: nat)
    requires Sized(g, t) && v < g.Size() && |t.q| <= c
    ensures ResetIns(g, t, v, |g.ins[v]|) == t && ResetFits(g, t, v, |g.ins[v]|, c)
  {
  }

  /** Reset the justified predecessors of `v` whose justification rests on it, as long as the stack has room. */
  method ResetPredecessors(g: Game, strategy: array<int>, justified: array<bool>, distraction: array<bool>,
                           v: nat, queue: array<nat>, pointer: nat, i: nat, ghost s: State)
    returns (ok: bool, pointer': nat, i': nat)
    requires Sized(g, s) && v < g.Size() && justified != distraction && pointer <= queue.Length
    requires s == Snapshot(i, s.blockstart, s.curParity, strategy, justified, distraction, queue[..pointer], s.iterations)
    modifies justified, distraction, queue
    ensures ok <==> ResetFits(g, s, v, 0, queue.Length)
    ensures ok ==> pointer' <= queue.Length
    ensures ok ==> (ResetIns(g, s, v, 0)
      == Snapshot(i', s.blockstart, s.curParity, strategy, justified, distraction, queue[..pointer'], s.iterations))
  {
    hide ResetIns, ResetFits;
    ok, pointer', i' := true, pointer, i;
    var k := 0;
    ghost var t := s;
    while k < |g.ins[v]|
      invariant k <= |g.ins[v]| && pointer' <= queue.Length && ok
      invariant t == Snapshot(i', s.blockstart, s.curParity, strategy, justified, distraction, queue[..pointer'], s.iterations)
      invariant Sized(g, t) && ResetIns(g, t, v, k) == ResetIns(g, s, v, 0)
      invariant ResetFits(g, t, v, k, queue.Length) <==> ResetFits(g, s, v, 0, queue.Length)
    {
      var from := g.ins[v][k];
      ResetsNext(g, t, v, k, queue.Length);
      if justified[from] && (strategy[from] == -1 || strategy[from] == v) {
        justified[from] := false;
        distraction[from] := false;
        t := Reset(t, from);
        if pointer' == queue.Length { return false, pointer', i'; }
        queue[pointer'] := from;
        pointer' := pointer' + 1;
        assert queue[..pointer'] == t.q;
        if from < i' { i' := from; }
      }
      k := k + 1;
    }
    ResetsNone(g, t, v, queue.Length);
  }

  /** Work off the stack: everything whose justification no longer holds is reset. */
  method ResetAll(g: Game, strategy: array<int>, justified: array<bool>, distraction: array<bool>,
                  queue: array<nat>, pointer: nat, i: nat, ghost s: State)
    returns (ok: bool, i': nat)
    requires Sized(g, s) && justified != distraction && pointer <= queue.Length
    requires s == Snapshot(i, s.blockstart, s.curParity, strategy, justified, distraction, queue[..pointer], s.iterations)
    modifies justified, distraction, queue
    ensures ok <==> StackFits(g, s, queue.Length)
    ensures ok ==> Propagate(g, s) == Snapshot(i', s.blockstart, s.curParity, strategy, justified, distraction, [], s.iterations)
  {
    i' := i;
    ok := true;
    var top: nat := pointer;
    ghost var t := s;
    while top != 0
      invariant top <= queue.Length && ok
      invariant t == Snapshot(i', s.blockstart, s.curParity, strategy, justified, distraction, queue[..top], s.iterations)
      invariant Sized(g, t) && Propagate(g, t) == Propagate(g, s)
      invariant StackFits(g, t, queue.Length) <==> StackFits(g, s, queue.Length)
      decreases |t.q| + 2 * CountTrue(t.justified)
    {
      assert |t.q| == top && queue[top - 1] == t.q[top - 1];
      top := top - 1;
      var v := queue[top];
      ghost var r := t.(q := t.q[..top]);
      assert queue[..top] == r.q;
      t := ResetIns(g, r, v, 0);
      ok, top, i' := ResetPredecessors(g, strategy, justified, distraction, v, queue, top, i', r);
      if !ok { return; }
    }
  }

  method Mark(g: Game, justified: array<bool>, distraction: array<bool>, queue: array<nat>, pointer: nat, ghost s: State)
    requires Sized(g, s) && justified != distraction && pointer <= queue.Length && s.q == queue[..pointer]
    requires justified[..] == s.justified && distraction[..] == s.distraction
    modifies justified, distraction
    ensures justified[..] == Marked(g, s).justified && distraction[..] == Marked(g, s).distraction
  {
    for n := 0 to pointer
      invariant forall v :: 0 <= v < g.Size() ==>
        justified[v] == (s.justified[v] || v in s.q[..n]) && distraction[v] == (s.distraction[v] || v in s.q[..n])
    {
      assert queue[n] == s.q[n];
      justified[queue[n]] := true;
      distraction[queue[n]] := true;
      assert s.q[..n + 1] == s.q[..n] + [s.q[n]];
    }
    assert s.q[..pointer] == s.q;
  }

  method Justify(g: Game, dis: array<bool>, justified: array<bool>, blockstart: nat, i: nat, ghost s: State)
    requires Sized(g, s) && justified != dis && dis.Length == g.Size()
    requires blockstart == s.blockstart <= i == s.i && justified[..] == s.justified
    modifies justified
    ensures justified[..] == JustifyBlock(g, dis[..], s).justified
  {
    for v := blockstart to i
      invariant forall u :: 0 <= u < g.Size() ==>
        justified[u] == (s.justified[u] || (blockstart <= u < v && !dis[u]))
    {
      if !dis[v] && !justified[v] {
        justified[v] := true;
      }
    }
  }

  /** The end of a block: mark and reset if there are distractions, otherwise justify the block. */
  method FinishBlock(g: Game, dis: array<bool>, strategy: array<int>, justified: array<bool>, distraction: array<bool>,
                     i: nat, blockstart: nat, queue: array<nat>, pointer: nat, iterations: nat, ghost s: State)
    returns (ok: bool, i': nat, iterations': nat)
    requires Sized(g, s) && dis.Length == g.Size() && blockstart <= i && pointer <= queue.Length
    requires justified != distraction && justified != dis && distraction != dis
    requires s == Snapshot(i, blockstart, s.curParity, strategy, justified, distraction, queue[..pointer], iterations)
    modifies justified, distraction, queue
    ensures ok <==> (s.q != [] ==> StackFits(g, Marked(g, s), queue.Length))
    ensures ok ==> EndBlock(g, dis[..], s) == Snapshot(i', blockstart, s.curParity, strategy, justified, distraction, [], iterations')
  {
    hide Propagate, StackFits;
    ok, i', iterations' := true, i, iterations;
    if pointer != 0 {
      Mark(g, justified, distraction, queue, pointer, s);
      ok, i' := ResetAll(g, strategy, justified, distraction, queue, pointer, i, Marked(g, s));
      iterations' := iterations + 1;
      if i' > blockstart { i' := blockstart; }
    } else {
      Justify(g, dis, justified, blockstart, i, s);
    }
  }

  /** Evaluate vertex `i` unless it is justified, as long as the stack has room. */
  method EvaluateVertex(g: Game, dis: array<bool>, strategy: array<int>, justified: array<bool>, distraction: array<bool>,
                        i: nat, curParity: Player, queue: array<nat>, pointer: nat, ghost s: State)
    returns (ok: bool, pointer': nat)
    requires Sized(g, s) && dis.Length == g.Size() && i < g.Size() && pointer <= queue.Length
    requires s == Snapshot(i, s.blockstart, curParity, strategy, justified, distraction, queue[..pointer], s.iterations)
    modifies strategy, queue
    ensures ok <==> |Evaluate(g, dis[..], s).q| <= queue.Length
    ensures ok ==> pointer' <= queue.Length
    ensures ok ==> (Evaluate(g, dis[..], s)
      == Snapshot(i + 1, s.blockstart, s.curParity, strategy, justified, distraction, queue[..pointer'], s.iterations))
  {
    hide FirstGood, OneStep;
    ok, pointer' := true, pointer;
    if !justified[i] {
      var winner, str := OneStepWinner(g, dis, distraction, i);
      strategy[i] := str;
      if curParity != winner {
        if pointer == queue.Length { return false, pointer; }
        queue[pointer] := i;
        pointer' := pointer + 1;
        assert queue[..pointer'] == s.q + [i];
      }
    }
  }

  /** One turn of the loop, as long as the stack has room. */
  method TakeTurn(g: Game, dis: array<bool>, strategy: array<int>, justified: array<bool>, distraction: array<bool>,
                  i: nat, blockstart: nat, curParity: Player, queue: array<nat>, pointer: nat, iterations: nat, ghost s: State)
    returns (ok: bool, left: bool, i': nat, blockstart': nat, curParity': Player, pointer': nat, iterations': nat)
    requires Sized(g, s) && dis.Length == g.Size() && blockstart <= i && pointer <= queue.Length
    requires justified != distraction && justified != dis && distraction != dis
    requires s == Snapshot(i, blockstart, curParity, strategy, justified, distraction, queue[..pointer], iterations)
    modifies strategy, justified, distraction, queue
    ensures ok <==> TurnFits(g, dis[..], s, queue.Length) && |Step(g, dis[..], s).s.q| <= queue.Length
    ensures ok ==> pointer' <= queue.Length && blockstart' <= i'
    ensures ok ==> (
      var t := Snapshot(i', blockstart', curParity', strategy, justified, distraction, queue[..pointer'], iterations');
      Step(g, dis[..], s) == if left then Finished(t) else Running(t))
  {
    hide EndBlock, Evaluate, StackFits, Marked;
    ok, left := true, false;
    i', blockstart', curParity', pointer', iterations' := i, blockstart, curParity, pointer, iterations;
    if i < g.Size() && dis[i] {
      i' := i + 1;
      return;
    }
    ghost var u := s;
    if i == g.Size() || g.Parity(i) != curParity {
      ok, i', iterations' := FinishBlock(g, dis, strategy, justified, distraction, i, blockstart, queue, pointer, iterations, s);
      if !ok { return; }
      pointer' := 0;
      u := EndBlock(g, dis[..], s);
      assert queue[..0] == u.q;
      if i' == g.Size() {
        left := true;
        return;
      }
      curParity' := g.Parity(i');
      blockstart' := i';
      u := NextBlock(g, u);
    }
    ok, pointer' := EvaluateVertex(g, dis, strategy, justified, distraction, i', curParity', queue, pointer', u);
    i' := i' + 1;
  }

  /** How a run of the loop ends: it is left, it is cut off by the budget, or the stack has no room for a push. */
  datatype Ending = Done | CutOff | Overflow

  /** The endless loop, cut off after `budget` turns. */
  method Iterate(g: Game, dis: array<bool>, strategy: array<int>, justified: array<bool>, distraction: array<bool>,
                 budget: nat)
    returns (ending: Ending, ghost final: State)
    requires g.Valid() && g.Size() > 0
    requires dis.Length == strategy.Length == justified.Length == distraction.Length == g.Size()
    requires justified != distraction && justified != dis && distraction != dis
    requires justified[..] == AllFalse(g.Size()) && distraction[..] == AllFalse(g.Size())
    modifies strategy, justified, distraction
    ensures Sized(g, Initial(g, old(strategy[..]))) && Sized(g, final)
    ensures ending.Overflow? <==> !RunFits(g, dis[..], Initial(g, old(strategy[..])), budget, g.Size())
    ensures !ending.Overflow? ==> final.strategy == strategy[..] && final.distraction == distraction[..]
    ensures !ending.Overflow? ==> (
      Run(g, dis[..], Initial(g, old(strategy[..])), budget) == if ending.Done? then Finished(final) else Running(final))
  {
    hide Step, TurnFits;
    ghost var d := dis[..];
    var queue := new nat[g.Size()];
    var pointer := 0;
    var curParity: Player := g.Parity(0);
    var i: nat, blockstart: nat, iterations: nat := 0, 0, 0;
    var turn := 0;
    ending := CutOff;
    assert queue[..0] == [];
    final := Snapshot(i, blockstart, curParity, strategy, justified, distraction, queue[..pointer], iterations);
    ghost var s0 := final;
    while turn < budget && ending.CutOff?
      invariant turn <= budget && dis[..] == d && queue.Length == g.Size() && fresh(queue) && !ending.Overflow?
      invariant pointer <= queue.Length && blockstart <= i
      invariant final == Snapshot(i, blockstart, curParity, strategy, justified, distraction, queue[..pointer], iterations)
      invariant Sized(g, final) && Sized(g, s0)
      invariant Run(g, d, s0, budget) == if ending.Done? then Finished(final) else Run(g, d, final, budget - turn)
      invariant RunFits(g, d, s0, budget, g.Size()) <==> (ending.Done? || RunFits(g, d, final, budget - turn, g.Size()))
    {
      ghost var s := final;
      var ok, left;
      ok, left, i, blockstart, curParity, pointer, iterations := TakeTurn(g, dis, strategy, justified, distraction,
        i, blockstart, curParity, queue, pointer, iterations, s);
      if !ok {
        TurnDecides(g, d, s, budget - turn, g.Size());
        ending := Overflow;
        return;
      }
      TurnDecides(g, d, s, budget - turn, g.Size());
      turn := turn + 1;
      final := Snapshot(i, blockstart, curParity, strategy, justified, distraction, queue[..pointer], iterations);
      if left { ending := Done; }
    }
  }

  /** What one turn says about the stack of the rest of the run. */
  lemma TurnDecides(g: Game, dis: seq<bool>, s: State, k: nat, c: nat)
    requires Sized(g, s) && |dis| == g.Size() && k > 0 && |s.q| <= c
    ensures Step(g, dis, s).Running? ==>
      (RunFits(g, dis, s, k, c) <==> TurnFits(g, dis, s, c) && |Step(g, dis, s).s.q| <= c && RunFits(g, dis, Step(g, dis, s).s, k - 1, c))
    ensures Step(g, dis, s).Finished? ==>
      (RunFits(g, dis, s, k, c) <==> TurnFits(g, dis, s, c)) && Step(g, dis, s).s.q == []
  {
    hide EndBlock, Evaluate;
    if Step(g, dis, s).Finished? { QueueEmptied(g, dis, s); }
  }

  /** Hand the result to Oink::solve. */
  method Report(oink: Oink, strategy: array<int>, distraction: array<bool>, ghost final: State)
    requires oink.Valid() && oink.Todo() == [] && Sized(oink.game, final)
    requires strategy != oink.strategy && strategy != oink.outcount
    requires distraction != oink.solved && distraction != oink.disabled
    requires strategy[..] == final.strategy && distraction[..] == final.distraction
    modifies oink`pointer, oink.solved, oink.winner, oink.strategy, oink.disabled, oink.todo
    ensures oink.Valid()
    ensures oink.Solved() == Vertices(oink.game)
    ensures oink.winner[..] == Merge(old(oink.Solved()), old(oink.winner[..]), Winners(oink.game, final))
    ensures oink.strategy[..] == Merge(old(oink.Solved()), old(oink.strategy[..]), Strategies(oink.game, final))
  {
    var g := oink.game;
    for v := 0 to g.Size()
      invariant oink.Valid()
      invariant forall u :: 0 <= u < g.Size() ==> oink.solved[u] == (old(oink.solved[u]) || u < v)
      invariant forall u :: 0 <= u < g.Size() ==>
        oink.winner[u] == (if !old(oink.solved[u]) && u < v then Winners(g, final)[u] else old(oink.winner[u]))
      invariant forall u :: 0 <= u < g.Size() ==>
        oink.strategy[u] == (if !old(oink.solved[u]) && u < v then Strategies(g, final)[u] else old(oink.strategy[u]))
    {
      assert oink.disabled[..][v] == oink.solved[..][v];
      if !oink.disabled[v] {
        var winner: Player := if distraction[v] then 1 - g.Parity(v) else g.Parity(v);
        oink.Solve(v, winner, if winner == g.owner[v] then strategy[v] else -1);
      }
    }
  }

  /** What it means for a run to end within the budget, not to, or to need more of the stack. */
  lemma BudgetMeaning(g: Game, dis: seq<bool>, strategy: seq<int>, budget: nat)
    requires Instance(g, dis) && |strategy| == g.Size() && Sized(g, Initial(g, strategy))
    ensures var o := Run(g, dis, Initial(g, strategy), budget);
      && (Tame(g, dis) && budget >= 2 * Bound(g) ==> o.Finished?)
      && (Trapped(g, dis) ==> o.Running?)
      && (o.Running? && budget >= Cutoff(g) ==> !Ends(g, dis, strategy))
    ensures Contained(g, dis) ==> RunFits(g, dis, Initial(g, strategy), budget, g.Size())
  {
    hide Run, RunFits, Tame, Trapped, Contained, Bound, Cutoff;
    if Tame(g, dis) && budget >= 2 * Bound(g) { TameFinishes(g, dis, strategy, budget); }
    if Trapped(g, dis) { TrappedRunsOn(g, dis, strategy, budget); }
    if Run(g, dis, Initial(g, strategy), budget).Running? && budget >= Cutoff(g) {
      forall k: nat ensures Run(g, dis, Initial(g, strategy), k).Running? { CutoffDecides(g, dis, strategy, budget, k); }
    }
    if Contained(g, dis) { StackAlwaysFits(g, dis, strategy, budget); }
  }

  /** The sequential solver. The turn budget stands in for the endless loop: a run that is cut off changes nothing.
      A finished run solves the unsolved subgame. It runs out of the stack exactly if some turn within the budget needs
      more than one entry a vertex, and never on a contained input. A tame input is finished within the bound, a trapped
      one never, and on any other input a run that reaches the cutoff would go on forever. */
  method RunSeq(oink: Oink, budget: nat) returns (ending: Ending, ghost strategy0: seq<int>, ghost final: State)
    requires oink.Valid() && oink.Todo() == [] && oink.game.Sorted() && oink.game.Size() > 0
    modifies oink`pointer, oink.solved, oink.winner, oink.strategy, oink.disabled, oink.todo
    ensures |strategy0| == oink.game.Size() && Sized(oink.game, final) && Instance(oink.game, old(oink.solved[..]))
    ensures Sized(oink.game, Initial(oink.game, strategy0))
    ensures ending.Overflow? <==> !RunFits(oink.game, old(oink.solved[..]), Initial(oink.game, strategy0), budget, oink.game.Size())
    ensures ending.Overflow? ==> !Contained(oink.game, old(oink.solved[..]))
    ensures !ending.Overflow? ==> (
      Run(oink.game, old(oink.solved[..]), Initial(oink.game, strategy0), budget)
      == if ending.Done? then Finished(final) else Running(final))
    ensures oink.Valid()
    ensures !ending.Done? ==> oink.Todo() == []
    ensures !ending.Done? ==> oink.solved[..] == old(oink.solved[..])
    ensures !ending.Done? ==> oink.winner[..] == old(oink.winner[..]) && oink.strategy[..] == old(oink.strategy[..])
    ensures ending.Done? ==> Solves(oink.game, old(oink.solved[..]), final)
    ensures ending.Done? ==> oink.Solved() == Vertices(oink.game)
    ensures ending.Done? ==> oink.winner[..] == Merge(old(oink.Solved()), old(oink.winner[..]), Winners(oink.game, final))
    ensures ending.Done? ==> oink.strategy[..] == Merge(old(oink.Solved()), old(oink.strategy[..]), Strategies(oink.game, final))
    ensures Tame(oink.game, old(oink.solved[..])) && budget >= 2 * Bound(oink.game) ==> ending.Done?
    ensures Trapped(oink.game, old(oink.solved[..])) ==> ending.CutOff?
    ensures ending.CutOff? && budget >= Cutoff(oink.game) ==> !Ends(oink.game, old(oink.solved[..]), strategy0)
  {
    hide RunFits, Tame, Contained, Trapped, Ends, Cutoff, Bound, Run, Solves, Inv;
    var g := oink.game;
    ghost var dis := oink.disabled[..];
    var n := g.Size();
    var strategy := new int[n];
    var justified, distraction := new bool[n](_ => false), new bool[n](_ => false);
    strategy0 := strategy[..];
    ending, final := Iterate(g, oink.disabled, strategy, justified, distraction, budget);
    InitialInv(g, dis, strategy0);
    RunCorrect(g, dis, Initial(g, strategy0), budget);
    BudgetMeaning(g, dis, strategy0, budget);
    TameContained(g, dis);
    if ending.Done? {
      Report(oink, strategy, distraction, final);
    }
  }

  lemma TameContained(g: Game, dis: seq<bool>)
    requires Instance(g, dis)
    ensures Tame(g, dis) || Trapped(g, dis) ==> Contained(g, dis)
  {
    hide Benign, Drawn, DrawnEnabled, Deferring, Stranded, Repelling;
  }

  /** Oink::run with the self-loop preprocessor and this solver: preprocessing, flushing and solving the rest add up to
      a correct solution of the whole game. */
  method SolveGame(oink: Oink, budget: nat) returns (ending: Ending)
    requires oink.Valid() && oink.Sound() && oink.Todo() == [] && oink.Counted(oink.Solved())
    requires oink.game.Sorted()
    modifies oink`pointer, oink.solved, oink.winner, oink.strategy, oink.disabled, oink.todo, oink.outcount
    ensures oink.Valid() && oink.Todo() == []
    ensures ending.Done? ==> oink.Solved() == Vertices(oink.game)
    ensures ending.Done? ==> Shape(oink.game, Vertices(oink.game), oink.winner[..], oink.strategy[..])
    ensures ending.Done? ==> CorrectSolution(oink.game, Vertices(oink.game), oink.winner[..], oink.strategy[..])
    ensures !ending.Done? ==> Instance(oink.game, oink.solved[..])
    ensures !ending.Done? ==> oink.Sound() && AttractorClosed(oink.game, oink.Solved(), oink.winner[..])
    ensures ending.Overflow? ==> !Contained(oink.game, oink.solved[..])
    ensures ending.CutOff? && budget >= 2 * Bound(oink.game) ==> !Tame(oink.game, oink.solved[..])
    ensures ending.CutOff? && budget >= Cutoff(oink.game) ==>
      exists strategy0 :: |strategy0| == oink.game.Size() && !Ends(oink.game, oink.solved[..], strategy0)
  {
    hide Game.Valid, PartialSolution, AttractorClosed, CorrectSolution, Merge, Oink.Counted, Run, RunFits, Tame, Trapped, Contained, Ends, Cutoff;
    var g := oink.game;
    var _ := oink.SolveSelfloops();
    Checked(oink);
    ghost var dis, win, str := oink.solved[..], oink.winner[..], oink.strategy[..];
    var solved := GameSolved(oink);
    if solved { return Done; }
    ghost var strategy0, final;
    ending, strategy0, final := RunSeq(oink, budget);
    if ending.Done? {
      // trash the todo buffer
      oink.pointer := 0;
      assert Dom(dis) == Vertices(g) - SetOf(dis);
      Combine(g, SetOf(dis), win, str, Winners(g, final), Strategies(g, final));
    }
  }

  /** The whole of it, from a game of which nothing is solved: a correct solution, if the loop of the solver is left. If it
      is not left within the bound, preprocessing has left over a sound and flushed solved part that is not tame; if the
      stack is too small for it, the solved part is not contained. */
  method SolveNew(g: Game, budget: nat)
    returns (ending: Ending, winner: seq<Player>, strategy: seq<int>, ghost dis: seq<bool>)
    requires g.Valid() && g.Sorted() && NoDeadEnds(g, Vertices(g))
    ensures ending.Done? ==> Shape(g, Vertices(g), winner, strategy) && CorrectSolution(g, Vertices(g), winner, strategy)
    ensures !ending.Done? ==>
      Instance(g, dis) && PartialSolution(g, SetOf(dis), winner, strategy) && AttractorClosed(g, SetOf(dis), winner)
    ensures ending.Overflow? ==> !Contained(g, dis)
    ensures ending.CutOff? && budget >= 2 * Bound(g) ==> !Tame(g, dis)
    ensures ending.CutOff? && budget >= Cutoff(g) ==> exists strategy0 :: |strategy0| == g.Size() && !Ends(g, dis, strategy0)
  {
    hide NoDeadEnds, Game.Valid, Oink.Counted, CorrectSolution, PartialSolution, AttractorClosed, Tame, Contained, Ends, Bound, Cutoff;
    var oink := NewOink(g);
    ending := SolveGame(oink, budget);
    winner, strategy := oink.winner[..], oink.strategy[..];
    dis := oink.solved[..];
  }
}
