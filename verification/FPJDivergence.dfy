/** Three games on which FPJSolver::runSeq never returns because vertex 0 is disabled. Each comes with a solved part that
    preprocessing can leave behind.

    In the first, vertex 0 is a winning loop that has been solved. The second shows that the loop may also get as far as
    a higher block: the disabled vertex 0 becomes a distraction, and vertex 2, whose move to it was ignored when vertex 2
    was justified, is reset with it. Vertex 3 rests on vertex 2, so that its own flip takes back its reason. In the
    third, vertex 0 and a vertex of the first block end up as each other's reason. */
module FPJDivergence {
  import opened ParityGames
  import opened Solutions
  import opened FixpointJustification
  import opened FPJInvariant
  import opened FPJTermination
  import opened FPJRestarts

  // ---------------------------------------------------------------------------------------------------------
  // A solved winning loop
  // ---------------------------------------------------------------------------------------------------------

  const LOOP: Game := Game([0, 0, 1], [0, 1, 0], [[0], [2], [1]], [[0], [2], [1]])

  const LOOP_SOLVED: seq<bool> := [true, false, false]

  lemma LoopInstance()
    ensures Instance(LOOP, LOOP_SOLVED)
  {
    assert LOOP.outs[0] == LOOP.ins[0] == [0];
    assert LOOP.outs[1] == LOOP.ins[1] == [2];
    assert LOOP.outs[2] == LOOP.ins[2] == [1];
  }

  /** Vertex 0 is won by the winning loop, and nothing is attracted to it. */
  lemma LoopSolved()
    ensures PartialSolution(LOOP, {0}, [0, 0, 0], [0, -1, -1]) && AttractorClosed(LOOP, {0}, [0, 0, 0])
    ensures Dom(LOOP_SOLVED) == {1, 2} && NoDeadEnds(LOOP, {1, 2})
  {
    LoopInstance();
    hide Game.Valid, CyclesWon, NoDeadEnds;
    assert LOOP.Edge(0, 0) && LOOP.Edge(1, 2) && LOOP.Edge(2, 1);
    LoopCycles();
    LoopGoesOn();
  }

  lemma LoopGoesOn()
    ensures LOOP.Valid() && NoDeadEnds(LOOP, {1, 2})
  {
    LoopInstance();
    hide Game.Valid;
    assert LOOP.Edge(1, 2) && LOOP.Edge(2, 1);
    assert HasSuccessor(LOOP, {1, 2}, 1) && HasSuccessor(LOOP, {1, 2}, 2);
  }

  lemma LoopCycles()
    ensures Shape(LOOP, {0}, [0, 0, 0], [0, -1, -1]) && CyclesWon(LOOP, {0}, [0, 0, 0], [0, -1, -1])
  {
    LoopInstance();
    hide Game.Valid;
    forall w | ClosedWalk(LOOP, {0}, [0, 0, 0], [0, -1, -1], w) ensures Won(LOOP, [0, 0, 0], w) {
      WalkInside(LOOP, {0}, [0, 0, 0], [0, -1, -1], w);
      hide ClosedWalk;
      assert LOOP.Parity(w[0]) == 0;
    }
  }

  lemma LoopTraps()
    ensures Instance(LOOP, LOOP_SOLVED) && Trapped(LOOP, LOOP_SOLVED)
  {
    LoopInstance();
    hide Game.Valid, Saturation;
    var g, dis := LOOP, LOOP_SOLVED;
    FirstGoodMeaning(g, dis, FirstFixpoint(g, dis), 0, 0);
    FirstGoodMeaning(g, dis, AllFalse(3), 1, 0);
    SelfResettingNotDrawn(g, dis);
    assert NextOther(g, dis, 2, 0) == 2 == NextOther(g, dis, 1, 0) == NextOther(g, dis, 0, 0);
    assert 1 in Dom(dis);
  }

  /** After the solved loop is taken out of the game of three vertices, no number of turns solves the other two. */
  lemma LoopNeverTerminates(strategy: seq<int>, budget: nat)
    requires |strategy| == 3
    ensures PartialSolution(LOOP, {0}, [0, 0, 0], [0, -1, -1]) && AttractorClosed(LOOP, {0}, [0, 0, 0])
    ensures Instance(LOOP, LOOP_SOLVED) && Dom(LOOP_SOLVED) == {1, 2} && NoDeadEnds(LOOP, {1, 2})
    ensures Sized(LOOP, Initial(LOOP, strategy)) && Run(LOOP, LOOP_SOLVED, Initial(LOOP, strategy), budget).Running?
  {
    LoopSolved();
    LoopTraps();
    hide Trapped, Run;
    TrappedRunsOn(LOOP, LOOP_SOLVED, strategy, budget);
  }

  // ---------------------------------------------------------------------------------------------------------
  // An entangled vertex 0
  // ---------------------------------------------------------------------------------------------------------

  const GAME: Game := Game(
    [0, 0, 0, 1, 2],
    [0, 1, 1, 1, 1],
    [[1, 4], [3], [0, 2], [2], [4]],
    [[2], [0], [2, 3], [1], [0, 4]])

  const DISABLED: seq<bool> := [true, false, false, false, true]

  lemma EdgesMatch(u: nat, v: nat)
    requires u < 5 && v < 5
    ensures multiset(GAME.ins[v])[u] == multiset(GAME.outs[u])[v]
  {
    assert GAME.outs[0] == [1, 4] && GAME.outs[1] == [3] && GAME.outs[2] == [0, 2] && GAME.outs[3] == [2] && GAME.outs[4] == [4];
    assert GAME.ins[0] == [2] && GAME.ins[1] == [0] && GAME.ins[2] == [2, 3] && GAME.ins[3] == [1] && GAME.ins[4] == [0, 4];
    assert multiset([1, 4]) == multiset{1, 4} && multiset([0, 2]) == multiset{0, 2};
    assert multiset([2, 3]) == multiset{2, 3} && multiset([0, 4]) == multiset{0, 4};
  }

  lemma EdgesInside(v: nat)
    requires v < 5
    ensures forall k :: 0 <= k < |GAME.outs[v]| ==> GAME.outs[v][k] < 5
    ensures forall k :: 0 <= k < |GAME.ins[v]| ==> GAME.ins[v][k] < 5
  {
    match v { case 0 => case 1 => case 2 => case 3 => case _ => }
  }

  lemma GameInstance()
    ensures Instance(GAME, DISABLED)
  {
    forall v | 0 <= v < 5
      ensures forall k :: 0 <= k < |GAME.outs[v]| ==> GAME.outs[v][k] < 5
      ensures forall k :: 0 <= k < |GAME.ins[v]| ==> GAME.ins[v][k] < 5
    {
      EdgesInside(v);
    }
    forall u, v | 0 <= u < 5 && 0 <= v < 5 ensures multiset(GAME.ins[v])[u] == multiset(GAME.outs[u])[v] {
      EdgesMatch(u, v);
    }
  }

  /** Even wins vertex 4, whose loop Odd cannot leave, and vertex 0, from which Even moves there. */
  const WINNER: seq<Player> := [0, 0, 0, 0, 0]
  const STRATEGY: seq<int> := [4, -1, -1, -1, -1]

  lemma GameSolved()
    ensures PartialSolution(GAME, {0, 4}, WINNER, STRATEGY) && AttractorClosed(GAME, {0, 4}, WINNER)
    ensures Dom(DISABLED) == {1, 2, 3} && NoDeadEnds(GAME, {1, 2, 3})
  {
    hide Game.Valid, CyclesWon, NoDeadEnds, AttractorClosed;
    GameInstance();
    assert GAME.outs[0] == [1, 4] && GAME.outs[4] == [4];
    assert GAME.Edge(0, 4);
    GameCycles();
    GameGoesOn();
    GameRepels();
  }

  lemma GameRepels()
    ensures GAME.Valid() && Within(GAME, {0, 4}) && AttractorClosed(GAME, {0, 4}, WINNER)
  {
    GameInstance();
    hide Game.Valid;
    assert GAME.outs[1] == [3] && GAME.outs[2] == [0, 2] && GAME.outs[3] == [2];
    assert GAME.Edge(1, 3) && GAME.Edge(2, 2) && GAME.Edge(3, 2);
  }

  lemma GameGoesOn()
    ensures GAME.Valid() && NoDeadEnds(GAME, {1, 2, 3})
  {
    GameInstance();
    hide Game.Valid;
    assert GAME.Edge(1, 3) && GAME.Edge(2, 2) && GAME.Edge(3, 2);
    assert HasSuccessor(GAME, {1, 2, 3}, 1) && HasSuccessor(GAME, {1, 2, 3}, 2) && HasSuccessor(GAME, {1, 2, 3}, 3);
  }

  lemma GameCycles()
    ensures Shape(GAME, {0, 4}, WINNER, STRATEGY) && CyclesWon(GAME, {0, 4}, WINNER, STRATEGY)
  {
    GameInstance();
    hide Game.Valid;
    forall w | ClosedWalk(GAME, {0, 4}, WINNER, STRATEGY, w) ensures Won(GAME, WINNER, w) {
      WalkInside(GAME, {0, 4}, WINNER, STRATEGY, w);
      hide ClosedWalk;
      HighestEven(w);
    }
  }

  lemma HighestEven(w: seq<nat>)
    requires |w| > 0 && forall k :: 0 <= k < |w| ==> w[k] in {0, 4}
    ensures TopParity(GAME, w, 0)
  {
    if k :| 0 <= k < |w| && w[k] == 4 {
      assert GAME.Parity(w[k]) == 0;
    } else {
      assert GAME.Parity(w[0]) == 0;
    }
  }

  /** Vertex 1 is a distraction from the first pass on, and therefore vertex 0 is one, whether it is disabled or not. */
  lemma GameEntangled()
    ensures Instance(GAME, DISABLED) && Entangled(GAME, DISABLED)
  {
    GameInstance();
    var enabled: seq<bool> := DISABLED[0 := false];
    EnabledInstance(GAME, DISABLED);
    hide Game.Valid, Saturation;
    DrawsZero(DISABLED);
    DrawsZero(enabled);
    FirstGoodMeaning(GAME, DISABLED, AllFalse(5), 1, 0);
    assert GAME.outs[0] == [1, 4] && GAME.outs[1] == [3] && GAME.outs[2] == [0, 2];
    assert GAME.Edge(0, 1) && GAME.Edge(2, 0) && 1 in Dom(DISABLED) && 2 in Dom(DISABLED);
    assert FirstEnd(GAME, DISABLED, 0) == 3;
  }

  lemma DrawsZero(dis: seq<bool>)
    requires dis == DISABLED || dis == DISABLED[0 := false]
    ensures Instance(GAME, dis) && OneStep(GAME, dis, FirstFixpoint(GAME, dis), 0) != GAME.Parity(0)
    ensures !dis[0] ==> FirstFixpoint(GAME, dis)[0]
    ensures OneStep(GAME, dis, AllFalse(5), 1) != GAME.Parity(0)
  {
    GameInstance();
    EnabledInstance(GAME, DISABLED);
    hide Game.Valid, Saturation, FirstGood, OneStep;
    var r := FirstFixpoint(GAME, dis);
    SaturationCloses(GAME, dis, AllFalse(5));
    assert FirstEnd(GAME, dis, 3) == FirstEnd(GAME, dis, 2) == FirstEnd(GAME, dis, 1) == FirstEnd(GAME, dis, 0) == 3;
    assert !r[3];
    OneMoves(dis, AllFalse(5));
    OneMoves(dis, r);
    assert InFirstBlock(GAME, dis, 1) && r[1];
    ZeroLoses(dis, r);
  }

  lemma OneMoves(dis: seq<bool>, d: seq<bool>)
    requires Instance(GAME, dis) && |d| == 5 && !dis[3] && !d[3]
    ensures OneStep(GAME, dis, d, 1) == 1
  {
    assert GAME.outs[1] == [3];
    FirstGoodMeaning(GAME, dis, d, 1, 0);
  }

  lemma ZeroLoses(dis: seq<bool>, d: seq<bool>)
    requires Instance(GAME, dis) && |d| == 5 && dis[4] && d[1]
    ensures OneStep(GAME, dis, d, 0) == 1
  {
    assert GAME.outs[0] == [1, 4];
    FirstGoodMeaning(GAME, dis, d, 0, 0);
  }

  // ---------------------------------------------------------------------------------------------------------
  // The run
  // ---------------------------------------------------------------------------------------------------------

  /** The eleven states the loop repeats, but for the strategies `x` and the round counter `r`. */
  function Lap(k: nat, x: seq<int>, r: nat): State
    requires k < 11
  {
    var none := [false, false, false, false, false];
    var one := [false, true, false, false, false];
    var two := [true, true, false, false, false];
    var three := [true, true, true, false, false];
    match k
    case 0 => State(1, 0, 0, x, none, none, [], r)
    case 1 => State(2, 0, 0, x, none, none, [1], r)
    case 2 => State(3, 0, 0, x, none, none, [1], r)
    case 3 => State(1, 0, 0, x, one, one, [0], r)
    case 4 => State(2, 0, 0, x, one, one, [0], r)
    case 5 => State(3, 0, 0, x, one, one, [0], r)
    case 6 => State(1, 0, 0, x, two, two, [], r)
    case 7 => State(2, 0, 0, x, two, two, [], r)
    case 8 => State(3, 0, 0, x, two, two, [], r)
    case 9 => State(4, 3, 1, x, three, two, [3], r)
    case _ => State(5, 3, 1, x, three, two, [3], r)
  }

  /** What the strategies have come to by then. */
  ghost predicate Fits(k: nat, x: seq<int>) {
    && |x| == 5
    && (k > 0 ==> x[1] == 3)
    && (k > 1 ==> x[2] == -1)
    && (k > 2 ==> x[0] == -1)
    && (k > 8 ==> x[3] == -1)
  }

  ghost predicate Turns(s: State, t: State) {
    Sized(GAME, s) && Step(GAME, DISABLED, s) == Running(t)
  }

  ghost predicate GameSized(s: State) {
    Sized(GAME, s)
  }

  lemma ScanTurns(k: nat, x: seq<int>, r: nat) returns (x': seq<int>)
    requires k in {0, 1, 3, 4, 6, 7, 9} && Fits(k, x)
    ensures Fits(k + 1, x') && Turns(Lap(k, x, r), Lap(k + 1, x', r))
  {
    GameInstance();
    var s := Lap(k, x, r);
    assert GAME.outs[1] == [3] && GAME.outs[2] == [0, 2];
    assert FirstGood(GAME, DISABLED, s.distraction, 1, 0) == if s.distraction[3] then -1 else 3;
    assert FirstGood(GAME, DISABLED, s.distraction, 2, 0) == if s.distraction[2] then 2 else -1;
    x' := if k == 0 then x[1 := 3] else if k in {1, 4, 7} then x[2 := -1] else x;
    assert x[2 := -1] == if k in {4, 7} then x else x[2 := -1];
  }

  /** One round of the propagation: pop `v` and reset what rests on it. */
  lemma PopOne(s: State, v: nat)
    requires Sized(GAME, s) && s.q == [v]
    ensures Propagate(GAME, s) == Propagate(GAME, ResetIns(GAME, s.(q := []), v, 0))
  {
    assert s.q[..0] == [];
  }

  /** Nothing rests on `v`, whose only predecessor is not justified. */
  lemma PopLast(s: State, v: nat, from: nat)
    requires Sized(GAME, s) && s.q == [v] && v < 5 && GAME.ins[v] == [from] && !s.justified[from]
    ensures Propagate(GAME, s) == s.(q := [])
  {
    PopOne(s, v);
    assert ResetIns(GAME, s.(q := []), v, 0) == s.(q := []);
  }

  /** The only predecessor of `v` rests on it. */
  lemma PopReset(s: State, v: nat, from: nat)
    requires Sized(GAME, s) && s.q == [v] && v < 5 && GAME.ins[v] == [from] && from < 5 && s.justified[from]
    requires s.strategy[from] == -1 || s.strategy[from] == v
    ensures Propagate(GAME, s) == Propagate(GAME, Reset(s.(q := []), from))
  {
    PopOne(s, v);
    assert ResetIns(GAME, s.(q := []), v, 0) == Reset(s.(q := []), from);
  }

  /** Of the predecessors of vertex 2, only vertex 3 is still justified. */
  lemma PopTwo(s: State)
    requires Sized(GAME, s) && s.q == [2] && !s.justified[2] && s.justified[3] && s.strategy[3] == -1
    ensures Propagate(GAME, s) == Propagate(GAME, Reset(s.(q := []), 3))
  {
    PopOne(s, 2);
    assert GAME.ins[2] == [2, 3];
    var t := s.(q := []);
    assert ResetIns(GAME, Reset(t, 3), 2, 2) == Reset(t, 3);
    assert ResetIns(GAME, t, 2, 1) == ResetIns(GAME, Reset(t, 3), 2, 2);
    assert ResetIns(GAME, t, 2, 0) == ResetIns(GAME, t, 2, 1);
  }

  /** The turn that follows the propagation restarts the first block at the disabled vertex 0. */
  lemma RestartTurn(s: State, j: seq<bool>, d: seq<bool>, i: nat)
    requires GameSized(s) && s.i in {3, 5} && s.q != [] && |j| == |d| == 5 && (s.blockstart == 0 || i == 0)
    requires s.i == 3 ==> s.curParity == 0
    requires Propagate(GAME, Marked(GAME, s)) == State(i, s.blockstart, s.curParity, s.strategy, j, d, [], s.iterations)
    ensures var x := s.strategy[0 := if d[1] then -1 else 1];
      Turns(s, if j[0] then State(1, 0, 0, s.strategy, j, d, [], s.iterations + 1)
               else State(1, 0, 0, x, j, d, if d[1] then [0] else [], s.iterations + 1))
  {
    hide Propagate, Marked;
    var t := State(0, s.blockstart, s.curParity, s.strategy, j, d, [], s.iterations + 1);
    assert EndBlock(GAME, DISABLED, s) == t;
    var u := State(0, 0, 0, s.strategy, j, d, [], s.iterations + 1);
    assert NextBlock(GAME, t) == u;
    assert GAME.outs[0] == [1, 4] && GAME.owner[0] == 0;
    assert FirstGood(GAME, DISABLED, d, 0, 2) == -1;
    assert FirstGood(GAME, DISABLED, d, 0, 1) == -1;
    assert FirstGood(GAME, DISABLED, d, 0, 0) == if d[1] then -1 else 1;
    assert Step(GAME, DISABLED, s) == Running(Evaluate(GAME, DISABLED, u));
  }

  lemma EndTurn2(x: seq<int>, r: nat)
    requires Fits(2, x)
    ensures Fits(3, x[0 := -1]) && Turns(Lap(2, x, r), Lap(3, x[0 := -1], r + 1))
  {
    GameInstance();
    var s := Lap(2, x, r);
    var one := [false, true, false, false, false];
    assert Marked(GAME, s) == s.(justified := one, distraction := one);
    PopLast(s.(justified := one, distraction := one), 1, 0);
    hide Propagate, Marked;
    RestartTurn(s, one, one, 3);
  }

  lemma EndTurn5(x: seq<int>, r: nat)
    requires Fits(5, x)
    ensures Fits(6, x) && Turns(Lap(5, x, r), Lap(6, x, r + 1))
  {
    GameInstance();
    var s := Lap(5, x, r);
    var two := [true, true, false, false, false];
    assert Marked(GAME, s) == s.(justified := two, distraction := two);
    PopLast(s.(justified := two, distraction := two), 0, 2);
    hide Propagate, Marked;
    RestartTurn(s, two, two, 3);
  }

  /** The first block is settled, and vertex 3 rests on vertex 2. */
  lemma EndTurn8(x: seq<int>, r: nat)
    requires Fits(8, x)
    ensures Fits(9, x[3 := -1]) && Turns(Lap(8, x, r), Lap(9, x[3 := -1], r))
  {
    GameInstance();
    var s := Lap(8, x, r);
    var three := [true, true, true, false, false];
    var t := JustifyBlock(GAME, DISABLED, s);
    assert t == s.(justified := three);
    assert GAME.outs[3] == [2] && FirstGood(GAME, DISABLED, s.distraction, 3, 0) == -1;
  }

  /** The states of the propagation that vertex 3 triggers: it resets vertices 1, 0 and 2, and at last itself. */
  function Collapse(j: nat, x: seq<int>, r: nat): State
    requires j < 5
  {
    match j
    case 0 => State(5, 3, 1, x, [true, true, true, true, false], [true, true, false, true, false], [3], r)
    case 1 => State(1, 3, 1, x, [true, false, true, true, false], [true, false, false, true, false], [1], r)
    case 2 => State(0, 3, 1, x, [false, false, true, true, false], [false, false, false, true, false], [0], r)
    case 3 => State(0, 3, 1, x, [false, false, false, true, false], [false, false, false, true, false], [2], r)
    case _ => State(0, 3, 1, x, [false, false, false, false, false], [false, false, false, false, false], [3], r)
  }

  lemma CollapseStep(j: nat, x: seq<int>, r: nat)
    requires j < 5 && Fits(10, x)
    ensures GameSized(Collapse(j, x, r))
    ensures Propagate(GAME, Collapse(j, x, r)) ==
      if j < 4 then Propagate(GAME, Collapse(j + 1, x, r)) else Collapse(4, x, r).(q := [])
  {
    hide Propagate, ResetIns;
    GameInstance();
    assert GAME.ins[0] == [2] && GAME.ins[1] == [0] && GAME.ins[3] == [1];
    var s := Collapse(j, x, r);
    match j {
      case 0 => PopReset(s, 3, 1); assert Reset(s.(q := []), 1) == Collapse(1, x, r);
      case 1 => PopReset(s, 1, 0); assert Reset(s.(q := []), 0) == Collapse(2, x, r);
      case 2 => PopReset(s, 0, 2); assert Reset(s.(q := []), 2) == Collapse(3, x, r);
      case 3 => PopTwo(s); assert Reset(s.(q := []), 3) == Collapse(4, x, r);
      case _ => PopLast(s, 3, 1);
    }
  }

  lemma EndTurn10(x: seq<int>, r: nat)
    requires Fits(10, x)
    ensures Fits(0, x[0 := 1]) && Turns(Lap(10, x, r), Lap(0, x[0 := 1], r + 1))
  {
    hide Propagate;
    var s := Lap(10, x, r);
    assert GameSized(s) by { GameInstance(); }
    assert Marked(GAME, s) == Collapse(0, x, r);
    hide Marked, Step, Turns, Sized, GameSized;
    CollapseStep(0, x, r);
    CollapseStep(1, x, r);
    CollapseStep(2, x, r);
    CollapseStep(3, x, r);
    CollapseStep(4, x, r);
    var none := [false, false, false, false, false];
    RestartTurn(s, none, none, 0);
  }

  lemma LapTurns(k: nat, x: seq<int>, r: nat) returns (k': nat, x': seq<int>, r': nat)
    requires k < 11 && Fits(k, x)
    ensures k' < 11 && Fits(k', x') && Turns(Lap(k, x, r), Lap(k', x', r'))
  {
    hide Turns, Lap;
    k', x', r' := (k + 1) % 11, x, r;
    match k {
      case 2 => EndTurn2(x, r); x', r' := x[0 := -1], r + 1;
      case 5 => EndTurn5(x, r); r' := r + 1;
      case 8 => EndTurn8(x, r); x' := x[3 := -1];
      case 10 => EndTurn10(x, r); x', r' := x[0 := 1], r + 1;
      case _ => x' := ScanTurns(k, x, r);
    }
  }

  lemma {:induction false} LapsForever(k: nat, x: seq<int>, r: nat, budget: nat)
    requires k < 11 && Fits(k, x)
    ensures GameSized(Lap(k, x, r)) && Run(GAME, DISABLED, Lap(k, x, r), budget).Running?
    decreases budget
  {
    hide Step, Sized, Lap, Fits;
    var k', x', r' := LapTurns(k, x, r);
    if budget > 0 { LapsForever(k', x', r', budget - 1); }
  }

  lemma FirstTurn(strategy: seq<int>)
    requires |strategy| == 5
    ensures GameSized(Initial(GAME, strategy)) && Turns(Initial(GAME, strategy), Lap(0, strategy, 0))
  {
    GameInstance();
  }

  /** From any content of the uninitialised strategy array, no number of turns leads out of the loop, although vertex 0
      is not trapped: it is entangled, and it is a flip of a higher block that brings the run back to its beginning. */
  lemma NeverTerminates(strategy: seq<int>, budget: nat)
    requires |strategy| == 5
    ensures PartialSolution(GAME, {0, 4}, WINNER, STRATEGY) && AttractorClosed(GAME, {0, 4}, WINNER)
    ensures Instance(GAME, DISABLED) && Dom(DISABLED) == {1, 2, 3} && NoDeadEnds(GAME, {1, 2, 3})
    ensures Entangled(GAME, DISABLED) && !Trapped(GAME, DISABLED)
    ensures Sized(GAME, Initial(GAME, strategy)) && Run(GAME, DISABLED, Initial(GAME, strategy), budget).Running?
  {
    GameSolved();
    GameEntangled();
    FirstTurn(strategy);
    hide Step, Lap, Initial, Instance, PartialSolution, AttractorClosed, NoDeadEnds, Benign, Drawn, Deferring, Stranded;
    if budget > 0 { LapsForever(0, strategy, 0, budget - 1); }
  }

  // ---------------------------------------------------------------------------------------------------------
  // An entangled vertex 0 that its owner has won
  // ---------------------------------------------------------------------------------------------------------

  /** Vertex 0 is won by its owner Odd, who moves to vertex 5, and counts as such once it is a distraction. In the end it
      rests on vertex 1, a distraction that was found without its move to vertex 0 and is reset with it. */
  const KNOT: Game := Game(
    [0, 0, 1, 2, 3, 3],
    [1, 0, 0, 0, 1, 1],
    [[2, 1, 5], [0, 4], [3], [2], [1], [5]],
    [[1], [4, 0], [3, 0], [2], [1], [5, 0]])

  const KNOT_SOLVED: seq<bool> := [true, false, false, false, false, true]
  const KNOT_WINNER: seq<Player> := [1, 0, 0, 0, 0, 1]
  const KNOT_STRATEGY: seq<int> := [5, -1, -1, -1, -1, 5]

  lemma KnotMatch(u: nat, v: nat)
    requires u < 6 && v < 6
    ensures multiset(KNOT.ins[v])[u] == multiset(KNOT.outs[u])[v]
  {
    assert KNOT.outs[0] == [2, 1, 5] && KNOT.outs[1] == [0, 4] && KNOT.outs[2] == [3];
    assert KNOT.outs[3] == [2] && KNOT.outs[4] == [1] && KNOT.outs[5] == [5];
    assert KNOT.ins[0] == [1] && KNOT.ins[1] == [4, 0] && KNOT.ins[2] == [3, 0];
    assert KNOT.ins[3] == [2] && KNOT.ins[4] == [1] && KNOT.ins[5] == [5, 0];
    assert multiset([2, 1, 5]) == multiset{2, 1, 5} && multiset([0, 4]) == multiset{0, 4};
    assert multiset([4, 0]) == multiset{4, 0} && multiset([3, 0]) == multiset{3, 0} && multiset([5, 0]) == multiset{5, 0};
  }

  lemma KnotInside(v: nat)
    requires v < 6
    ensures forall k :: 0 <= k < |KNOT.outs[v]| ==> KNOT.outs[v][k] < 6
    ensures forall k :: 0 <= k < |KNOT.ins[v]| ==> KNOT.ins[v][k] < 6
  {
    match v { case 0 => case 1 => case 2 => case 3 => case 4 => case _ => }
  }

  lemma KnotInstance()
    ensures Instance(KNOT, KNOT_SOLVED)
  {
    forall v | 0 <= v < 6
      ensures forall k :: 0 <= k < |KNOT.outs[v]| ==> KNOT.outs[v][k] < 6
      ensures forall k :: 0 <= k < |KNOT.ins[v]| ==> KNOT.ins[v][k] < 6
    {
      KnotInside(v);
    }
    forall u, v | 0 <= u < 6 && 0 <= v < 6 ensures multiset(KNOT.ins[v])[u] == multiset(KNOT.outs[u])[v] {
      KnotMatch(u, v);
    }
  }

  lemma KnotSolved()
    ensures PartialSolution(KNOT, {0, 5}, KNOT_WINNER, KNOT_STRATEGY) && AttractorClosed(KNOT, {0, 5}, KNOT_WINNER)
    ensures Dom(KNOT_SOLVED) == {1, 2, 3, 4} && NoDeadEnds(KNOT, {1, 2, 3, 4})
  {
    hide Game.Valid, CyclesWon, NoDeadEnds, AttractorClosed;
    KnotInstance();
    assert KNOT.outs[0] == [2, 1, 5] && KNOT.outs[5] == [5];
    assert KNOT.Edge(0, 5) && KNOT.Edge(5, 5);
    KnotCycles();
    KnotGoesOn();
    KnotRepels();
  }

  lemma KnotRepels()
    ensures KNOT.Valid() && Within(KNOT, {0, 5}) && AttractorClosed(KNOT, {0, 5}, KNOT_WINNER)
  {
    KnotInstance();
    hide Game.Valid;
    assert KNOT.outs[1] == [0, 4] && KNOT.outs[2] == [3] && KNOT.outs[3] == [2] && KNOT.outs[4] == [1];
    assert KNOT.Edge(1, 4) && KNOT.Edge(2, 3) && KNOT.Edge(3, 2) && KNOT.Edge(4, 1);
  }

  lemma KnotGoesOn()
    ensures KNOT.Valid() && NoDeadEnds(KNOT, {1, 2, 3, 4})
  {
    KnotInstance();
    hide Game.Valid;
    assert KNOT.Edge(1, 4) && KNOT.Edge(2, 3) && KNOT.Edge(3, 2) && KNOT.Edge(4, 1);
    assert HasSuccessor(KNOT, {1, 2, 3, 4}, 1) && HasSuccessor(KNOT, {1, 2, 3, 4}, 2);
    assert HasSuccessor(KNOT, {1, 2, 3, 4}, 3) && HasSuccessor(KNOT, {1, 2, 3, 4}, 4);
  }

  lemma KnotCycles()
    ensures Shape(KNOT, {0, 5}, KNOT_WINNER, KNOT_STRATEGY) && CyclesWon(KNOT, {0, 5}, KNOT_WINNER, KNOT_STRATEGY)
  {
    KnotInstance();
    hide Game.Valid;
    forall w | ClosedWalk(KNOT, {0, 5}, KNOT_WINNER, KNOT_STRATEGY, w) ensures Won(KNOT, KNOT_WINNER, w) {
      WalkInside(KNOT, {0, 5}, KNOT_WINNER, KNOT_STRATEGY, w);
      assert Move(KNOT, {0, 5}, KNOT_WINNER, KNOT_STRATEGY, w[0], w[1]);
      assert w[1] == 5;
      hide ClosedWalk;
      assert KNOT.Parity(w[1]) == 1;
    }
  }

  /** Vertex 0 moves to vertex 2 as long as that is no distraction, and to vertex 1 once that is one. */
  lemma KnotZero(dis: seq<bool>, d: seq<bool>)
    requires Instance(KNOT, dis) && |d| == 6 && !dis[1] && !dis[2] && dis[5]
    ensures FirstGood(KNOT, dis, d, 0, 0) == if !d[2] then 2 else if d[1] then 1 else -1
    ensures OneStep(KNOT, dis, d, 0) == if !d[2] || d[1] then 1 else 0
  {
    assert KNOT.outs[0] == [2, 1, 5];
    assert FirstGood(KNOT, dis, d, 0, 3) == -1;
    assert FirstGood(KNOT, dis, d, 0, 2) == -1;
    assert FirstGood(KNOT, dis, d, 0, 1) == if d[1] then 1 else -1;
  }

  lemma KnotOne(d: seq<bool>)
    requires Instance(KNOT, KNOT_SOLVED) && |d| == 6 && !d[4]
    ensures FirstGood(KNOT, KNOT_SOLVED, d, 1, 0) == -1 && OneStep(KNOT, KNOT_SOLVED, d, 1) == 1
  {
    assert KNOT.outs[1] == [0, 4];
    assert FirstGood(KNOT, KNOT_SOLVED, d, 1, 2) == -1;
    assert FirstGood(KNOT, KNOT_SOLVED, d, 1, 1) == -1;
  }

  lemma KnotDraws(dis: seq<bool>)
    requires dis == KNOT_SOLVED || dis == KNOT_SOLVED[0 := false]
    ensures Instance(KNOT, dis) && OneStep(KNOT, dis, FirstFixpoint(KNOT, dis), 0) == 1
    ensures !dis[0] ==> FirstFixpoint(KNOT, dis)[0]
  {
    KnotInstance();
    EnabledInstance(KNOT, KNOT_SOLVED);
    hide Game.Valid, Saturation, FirstGood, OneStep;
    SaturationCloses(KNOT, dis, AllFalse(6));
    assert FirstEnd(KNOT, dis, 2) == FirstEnd(KNOT, dis, 1) == FirstEnd(KNOT, dis, 0) == 2;
    assert !FirstFixpoint(KNOT, dis)[2];
    KnotZero(dis, FirstFixpoint(KNOT, dis));
  }

  lemma KnotEntangled()
    ensures Instance(KNOT, KNOT_SOLVED) && Entangled(KNOT, KNOT_SOLVED)
  {
    hide Benign, Deferring, Stranded, Saturation, FirstGood, OneStep, Game.Valid;
    KnotInstance();
    KnotDraws(KNOT_SOLVED);
    KnotDraws(KNOT_SOLVED[0 := false]);
    KnotDepends();
  }

  lemma KnotDepends()
    requires Instance(KNOT, KNOT_SOLVED)
    ensures !Benign(KNOT, KNOT_SOLVED) && !Deferring(KNOT, KNOT_SOLVED) && !Stranded(KNOT, KNOT_SOLVED)
  {
    KnotOne(AllFalse(6));
    hide Game.Valid, FirstGood, OneStep;
    assert FirstEnd(KNOT, KNOT_SOLVED, 0) == 2;
    assert KNOT.outs[0] == [2, 1, 5] && KNOT.outs[1] == [0, 4];
    assert KNOT.Edge(0, 2) && KNOT.Edge(1, 0) && 1 in Dom(KNOT_SOLVED) && 2 in Dom(KNOT_SOLVED);
  }

  /** The states of the run but for the strategies `x` and the round counter `r`; it repeats those from 9 on. */
  function Winding(k: nat, x: seq<int>, r: nat): State
    requires k < 13
  {
    var none := [false, false, false, false, false, false];
    var zero := [true, false, false, false, false, false];
    var one := [false, true, false, false, false, false];
    var both := [true, true, false, false, false, false];
    var two := [false, false, true, false, false, false];
    var last := [false, true, true, false, false, false];
    match k
    case 0 => State(1, 0, 0, x, none, none, [], r)
    case 1 => State(2, 0, 0, x, none, none, [1], r)
    case 2 => State(1, 0, 0, x, one, one, [0], r)
    case 3 => State(2, 0, 0, x, one, one, [0], r)
    case 4 => State(1, 0, 0, x, zero, zero, [], r)
    case 5 => State(2, 0, 0, x, zero, zero, [1], r)
    case 6 => State(1, 0, 0, x, both, both, [], r)
    case 7 => State(2, 0, 0, x, both, both, [], r)
    case 8 => State(3, 2, 1, x, both, both, [2], r)
    case 9 => State(1, 0, 0, x, two, two, [], r)
    case 10 => State(2, 0, 0, x, two, two, [1], r)
    case 11 => State(1, 0, 0, x, last, last, [0], r)
    case _ => State(2, 0, 0, x, last, last, [0], r)
  }

  ghost predicate Winds(k: nat, x: seq<int>) {
    && |x| == 6
    && (k > 0 ==> x[1] == -1)
    && (1 < k < 9 ==> x[0] == 2)
    && (k > 10 ==> x[0] == 1)
  }

  ghost predicate Knotted(s: State, t: State) {
    Sized(KNOT, s) && Step(KNOT, KNOT_SOLVED, s) == Running(t)
  }

  lemma KnotScans(k: nat, x: seq<int>, r: nat) returns (x': seq<int>)
    requires k in {0, 2, 4, 6, 9, 11} && Winds(k, x)
    ensures Winds(k + 1, x') && Knotted(Winding(k, x, r), Winding(k + 1, x', r))
  {
    KnotInstance();
    var s := Winding(k, x, r);
    KnotOne(s.distraction);
    hide FirstGood;
    x' := if k in {0, 4, 9} then x[1 := -1] else x;
  }

  /** Popping vertex 0 resets vertex 1 if it is justified. */
  lemma KnotPopZero(s: State)
    requires Sized(KNOT, s) && s.q == [0] && s.strategy[1] == -1
    ensures Propagate(KNOT, s) == if s.justified[1] then Propagate(KNOT, Reset(s.(q := []), 1)) else s.(q := [])
  {
    assert s.q[..0] == [] && KNOT.ins[0] == [1];
    var t := s.(q := []);
    assert ResetIns(KNOT, t, 0, 0) == if s.justified[1] then Reset(t, 1) else t;
  }

  /** Popping vertex 1 resets vertex 0 if it is justified and rests on it. */
  lemma KnotPopOne(s: State)
    requires Sized(KNOT, s) && s.q == [1] && !s.justified[4] && s.strategy[0] != -1
    ensures Propagate(KNOT, s) ==
      if s.justified[0] && s.strategy[0] == 1 then Propagate(KNOT, Reset(s.(q := []), 0)) else s.(q := [])
  {
    assert s.q[..0] == [] && KNOT.ins[1] == [4, 0];
    var t := s.(q := []);
    var u := if s.justified[0] && s.strategy[0] == 1 then Reset(t, 0) else t;
    assert ResetIns(KNOT, u, 1, 2) == u;
    assert ResetIns(KNOT, t, 1, 1) == u;
    assert ResetIns(KNOT, t, 1, 0) == u;
  }

  lemma KnotPopTwo(s: State)
    requires Sized(KNOT, s) && s.q == [2] && !s.justified[3] && s.justified[0] && s.strategy[0] == 2
    ensures Propagate(KNOT, s) == Propagate(KNOT, Reset(s.(q := []), 0))
  {
    assert s.q[..0] == [] && KNOT.ins[2] == [3, 0];
    var t := s.(q := []);
    assert ResetIns(KNOT, Reset(t, 0), 2, 2) == Reset(t, 0);
    assert ResetIns(KNOT, t, 2, 1) == Reset(t, 0);
    assert ResetIns(KNOT, t, 2, 0) == Reset(t, 0);
  }

  lemma KnotEnds(s: State)
    requires Sized(KNOT, s) && s.i in {2, 3} && (s.i == 2 ==> s.curParity == 0) && (s.i == 3 ==> s.curParity == 1)
    ensures s.i < KNOT.Size() && !KNOT_SOLVED[s.i] && BlockEnded(KNOT, s)
  {
  }

  /** The turn that follows the propagation restarts the first block at the disabled vertex 0. */
  lemma KnotRestart(s: State, d: seq<bool>, i: nat)
    requires Sized(KNOT, s) && |s.q| == 1 && |d| == 6 && s.i in {2, 3} && (s.i == 2 ==> s.curParity == 0) && (s.i == 3 ==> s.curParity == 1)
    requires (s.blockstart == 0 || i == 0)
    requires Propagate(KNOT, Marked(KNOT, s)) == State(i, s.blockstart, s.curParity, s.strategy, d, d, [], s.iterations)
    ensures Knotted(s, if d[0] then State(1, 0, 0, s.strategy, d, d, [], s.iterations + 1)
      else State(1, 0, 0, s.strategy[0 := if !d[2] then 2 else if d[1] then 1 else -1], d, d,
                 if !d[2] || d[1] then [0] else [], s.iterations + 1))
  {
    hide Propagate, Marked, FirstGood, OneStep, Game.Valid;
    KnotInstance();
    KnotZero(KNOT_SOLVED, d);
    var t := State(0, s.blockstart, s.curParity, s.strategy, d, d, [], s.iterations + 1);
    var u := State(0, 0, 0, s.strategy, d, d, [], s.iterations + 1);
    KnotEnds(s);
    assert EndBlock(KNOT, KNOT_SOLVED, s) == t && NextBlock(KNOT, t) == u;
    hide EndBlock;
    assert Step(KNOT, KNOT_SOLVED, s) == Running(Evaluate(KNOT, KNOT_SOLVED, u));
  }

  /** Marking, where the distractions are exactly what is justified. */
  lemma KnotMarked(s: State, d: seq<bool>)
    requires Sized(KNOT, s) && |d| == 6 && s.justified == s.distraction
    requires forall v :: 0 <= v < 6 ==> d[v] == (s.justified[v] || v in s.q)
    ensures Marked(KNOT, s) == s.(justified := d, distraction := d)
  {
  }

  lemma KnotSized(k: nat, x: seq<int>, r: nat)
    requires k < 13 && |x| == 6
    ensures Sized(KNOT, Winding(k, x, r))
  {
    KnotInstance();
    hide Game.Valid;
  }

  /** Vertex 1 flips, and vertex 0 does not rest on it. */
  lemma KnotFlipOne(k: nat, x: seq<int>, r: nat) returns (x': seq<int>)
    requires k in {1, 5, 10} && Winds(k, x)
    ensures Winds(k + 1, x') && Knotted(Winding(k, x, r), Winding(k + 1, x', r + 1))
  {
    hide Propagate, Marked, Step, Game.Valid;
    var s := Winding(k, x, r);
    var d := if k == 1 then [false, true, false, false, false, false]
      else if k == 5 then [true, true, false, false, false, false] else [false, true, true, false, false, false];
    KnotSized(k, x, r);
    KnotMarked(s, d);
    KnotPopFree(s.(justified := d, distraction := d));
    KnotRestart(s, d, 2);
    x' := if k == 1 then x[0 := 2] else if k == 5 then x else x[0 := 1];
  }

  lemma KnotPopFree(s: State)
    requires Sized(KNOT, s) && s.q == [1] && !s.justified[4] && (s.justified[0] ==> s.strategy[0] == 2)
    ensures Propagate(KNOT, s) == s.(q := [])
  {
    assert s.q[..0] == [] && KNOT.ins[1] == [4, 0];
    var t := s.(q := []);
    assert ResetIns(KNOT, t, 1, 2) == t;
    assert ResetIns(KNOT, t, 1, 1) == t;
    assert ResetIns(KNOT, t, 1, 0) == t;
  }

  /** The propagation of the first flip of vertex 0. */
  lemma KnotUnties(x: seq<int>, r: nat)
    requires |x| == 6 && x[0] == 2 && x[1] == -1
    ensures var both, zero := [true, true, false, false, false, false], [true, false, false, false, false, false];
      && Sized(KNOT, State(2, 0, 0, x, both, both, [0], r))
      && Propagate(KNOT, State(2, 0, 0, x, both, both, [0], r)) == State(1, 0, 0, x, zero, zero, [], r)
  {
    hide Propagate, ResetIns;
    KnotInstance();
    var both, zero := [true, true, false, false, false, false], [true, false, false, false, false, false];
    var m, t := State(2, 0, 0, x, both, both, [0], r), State(1, 0, 0, x, zero, zero, [1], r);
    assert Reset(m.(q := []), 1) == t;
    KnotPopZero(m);
    KnotPopFree(t);
  }

  /** Vertex 0 flips and resets vertex 1. */
  lemma KnotFlipZero(x: seq<int>, r: nat)
    requires Winds(3, x)
    ensures Winds(4, x) && Knotted(Winding(3, x, r), Winding(4, x, r + 1))
  {
    hide Propagate, Marked, Step, Sized;
    var s := Winding(3, x, r);
    var both, zero := [true, true, false, false, false, false], [true, false, false, false, false, false];
    KnotSized(3, x, r);
    KnotMarked(s, both);
    KnotUnties(x, r);
    KnotRestart(s, zero, 1);
  }

  /** The propagation of a flip of vertex 2: it resets vertex 0 and with it vertex 1. */
  lemma KnotLoosens(x: seq<int>, r: nat)
    requires |x| == 6 && x[0] == 2 && x[1] == -1
    ensures var three, two := [true, true, true, false, false, false], [false, false, true, false, false, false];
      && Sized(KNOT, State(3, 2, 1, x, three, three, [2], r))
      && Propagate(KNOT, State(3, 2, 1, x, three, three, [2], r)) == State(0, 2, 1, x, two, two, [], r)
  {
    hide Propagate, ResetIns;
    KnotInstance();
    var three, last, two := [true, true, true, false, false, false], [false, true, true, false, false, false], [false, false, true, false, false, false];
    var m, t, u := State(3, 2, 1, x, three, three, [2], r), State(0, 2, 1, x, last, last, [0], r), State(0, 2, 1, x, two, two, [1], r);
    assert Reset(m.(q := []), 0) == t && Reset(t.(q := []), 1) == u;
    KnotPopTwo(m);
    KnotPopZero(t);
    KnotPopFree(u);
  }

  /** Vertex 2 flips, which resets vertex 0 and with it vertex 1. */
  lemma KnotFlipTwo(x: seq<int>, r: nat)
    requires Winds(8, x)
    ensures Winds(9, x[0 := -1]) && Knotted(Winding(8, x, r), Winding(9, x[0 := -1], r + 1))
  {
    hide Propagate, Marked, Step, Sized;
    var s := Winding(8, x, r);
    var three, two := [true, true, true, false, false, false], [false, false, true, false, false, false];
    KnotSized(8, x, r);
    KnotMarked(s, three);
    KnotLoosens(x, r);
    KnotRestart(s, two, 0);
  }

  /** The propagation of a flip of vertex 0: it resets vertex 1 and with it vertex 0 itself. */
  lemma KnotTightens(x: seq<int>, r: nat)
    requires |x| == 6 && x[0] == 1 && x[1] == -1
    ensures var three, two := [true, true, true, false, false, false], [false, false, true, false, false, false];
      && Sized(KNOT, State(2, 0, 0, x, three, three, [0], r))
      && Propagate(KNOT, State(2, 0, 0, x, three, three, [0], r)) == State(0, 0, 0, x, two, two, [], r)
  {
    hide Propagate, ResetIns;
    KnotInstance();
    var three, half, two := [true, true, true, false, false, false], [true, false, true, false, false, false], [false, false, true, false, false, false];
    var m, t, u := State(2, 0, 0, x, three, three, [0], r), State(1, 0, 0, x, half, half, [1], r), State(0, 0, 0, x, two, two, [0], r);
    assert Reset(m.(q := []), 1) == t && Reset(t.(q := []), 0) == u;
    KnotPopZero(m);
    KnotPopOne(t);
    KnotPopZero(u);
  }

  /** Vertex 0 flips, which resets vertex 1 and with it vertex 0 itself. */
  lemma KnotTies(x: seq<int>, r: nat)
    requires Winds(12, x)
    ensures Winds(9, x[0 := -1]) && Knotted(Winding(12, x, r), Winding(9, x[0 := -1], r + 1))
  {
    hide Propagate, Marked, Step, Sized;
    var s := Winding(12, x, r);
    var three, two := [true, true, true, false, false, false], [false, false, true, false, false, false];
    KnotSized(12, x, r);
    KnotMarked(s, three);
    KnotTightens(x, r);
    KnotRestart(s, two, 0);
  }

  /** The first block is settled, and vertex 2 is a distraction. */
  lemma KnotSettles(x: seq<int>, r: nat)
    requires Winds(7, x)
    ensures Winds(8, x[2 := 3]) && Knotted(Winding(7, x, r), Winding(8, x[2 := 3], r))
  {
    KnotInstance();
    var s := Winding(7, x, r);
    assert JustifyBlock(KNOT, KNOT_SOLVED, s) == s;
    assert KNOT.outs[2] == [3] && FirstGood(KNOT, KNOT_SOLVED, s.distraction, 2, 0) == 3;
  }

  lemma KnotTurns(k: nat, x: seq<int>, r: nat) returns (k': nat, x': seq<int>, r': nat)
    requires k < 13 && Winds(k, x)
    ensures k' < 13 && Winds(k', x') && Knotted(Winding(k, x, r), Winding(k', x', r'))
  {
    hide Knotted, Winding;
    k', x', r' := k + 1, x, r;
    match k {
      case 3 => KnotFlipZero(x, r); r' := r + 1;
      case 7 => KnotSettles(x, r); x' := x[2 := 3];
      case 8 => KnotFlipTwo(x, r); x', r' := x[0 := -1], r + 1;
      case 12 => KnotTies(x, r); k', x', r' := 9, x[0 := -1], r + 1;
      case _ =>
        if k in {1, 5, 10} {
          x' := KnotFlipOne(k, x, r);
          r' := r + 1;
        } else {
          x' := KnotScans(k, x, r);
        }
    }
  }

  lemma {:induction false} WindsForever(k: nat, x: seq<int>, r: nat, budget: nat)
    requires k < 13 && Winds(k, x)
    ensures Sized(KNOT, Winding(k, x, r)) && Run(KNOT, KNOT_SOLVED, Winding(k, x, r), budget).Running?
    decreases budget
  {
    hide Step, Winding, Winds;
    var k', x', r' := KnotTurns(k, x, r);
    if budget > 0 { WindsForever(k', x', r', budget - 1); }
  }

  lemma KnotBegins(strategy: seq<int>)
    requires |strategy| == 6
    ensures Sized(KNOT, Initial(KNOT, strategy)) && Knotted(Initial(KNOT, strategy), Winding(0, strategy, 0))
  {
    KnotInstance();
  }

  /** Not even a solved vertex 0 that counts as won by the right player guarantees an end: the owner of vertex 0 does not
      own its priority, the solved part is sound and flushed, and no number of turns leads out of the loop. */
  lemma KnotNeverTerminates(strategy: seq<int>, budget: nat)
    requires |strategy| == 6
    ensures PartialSolution(KNOT, {0, 5}, KNOT_WINNER, KNOT_STRATEGY) && AttractorClosed(KNOT, {0, 5}, KNOT_WINNER)
    ensures Instance(KNOT, KNOT_SOLVED) && Dom(KNOT_SOLVED) == {1, 2, 3, 4} && NoDeadEnds(KNOT, {1, 2, 3, 4})
    ensures KNOT.owner[0] != KNOT.Parity(0) && Entangled(KNOT, KNOT_SOLVED) && !Trapped(KNOT, KNOT_SOLVED)
    ensures Sized(KNOT, Initial(KNOT, strategy)) && Run(KNOT, KNOT_SOLVED, Initial(KNOT, strategy), budget).Running?
  {
    hide Step, Run, Winding, Initial, Instance, PartialSolution, AttractorClosed, NoDeadEnds, Benign, Drawn, DrawnEnabled, Deferring, Stranded, Sized;
    KnotSolved();
    KnotEntangled();
    KnotBegins(strategy);
    KnotGoes(strategy, budget);
  }

  lemma KnotGoes(strategy: seq<int>, budget: nat)
    requires |strategy| == 6
    ensures Sized(KNOT, Initial(KNOT, strategy)) && Run(KNOT, KNOT_SOLVED, Initial(KNOT, strategy), budget).Running?
  {
    hide Step, Winding, Initial;
    KnotBegins(strategy);
    if budget > 0 { WindsForever(0, strategy, 0, budget - 1); }
  }
}
