/** The solver of zlkpp.cpp as Oink runs it: on the vertices that preprocessing has left over. */
module ZLKPPRun {
  import opened ParityGames
  import opened Solutions
  import opened OinkFramework
  import opened LinkedNodes
  import opened Zielonka
  import opened ZLKPPSolver

  /** The smallest number of vertices of a dominion: one if there is a self-loop. */
  method MinDominion(g: Game) returns (m: nat)
    requires g.Valid()
    ensures m == if exists v :: 0 <= v < g.Size() && g.Edge(v, v) then 1 else 2
  {
    m := 2;
    for v := 0 to g.Size()
      invariant m == if exists u :: 0 <= u < v && g.Edge(u, u) then 1 else 2
    {
      if v in g.outs[v] {
        assert g.Edge(v, v);
        return 1;
      }
    }
  }

  function Pow2(k: nat): (p: nat)
    ensures p > k
  {
    if k == 0 then 1 else 2 * Pow2(k - 1)
  }

  /** The first of the numbers 2^k - 1 that is not below `n`. */
  ghost predicate IsPrecision(prec: nat, n: nat) {
    prec >= n && exists k: nat :: prec == Pow2(k) - 1 && (k > 0 ==> Pow2(k - 1) - 1 < n)
  }

  method Precision(n: nat) returns (prec: nat)
    ensures IsPrecision(prec, n)
  {
    var pow2 := 0;
    while Pow2(pow2) - 1 < n
      invariant pow2 > 0 ==> Pow2(pow2 - 1) - 1 < n
      decreases n - pow2
    {
      pow2 := pow2 + 1;
    }
    prec := Pow2(pow2) - 1;
  }

  // ---------------------------------------------------------------------------------------------------------
  // Reporting
  // ---------------------------------------------------------------------------------------------------------

  /** What the solver found for the vertices of `dom` from `v` on, and the older solution elsewhere. */
  ghost predicate ReportedFrom(oink: Oink, dom: set<nat>, v: nat, win: seq<Player>, str: seq<int>,
                               solved0: seq<bool>, winner0: seq<Player>, strategy0: seq<int>)
    requires oink.Valid() && |win| == |str| == |solved0| == |winner0| == |strategy0| == oink.game.Size()
    reads oink, oink.solved, oink.winner, oink.strategy, oink.disabled, oink.todo
  {
    && (forall u :: 0 <= u < oink.game.Size() ==> oink.solved[u] == (solved0[u] || (u in dom && u >= v)))
    && (forall u :: 0 <= u < oink.game.Size() ==> oink.winner[u] == if u in dom && u >= v then win[u] else winner0[u])
    && (forall u :: 0 <= u < oink.game.Size() ==> oink.strategy[u] == if u in dom && u >= v then str[u] else strategy0[u])
  }

  lemma ReportedShift(oink: Oink, dom: set<nat>, v: nat, v': nat, win: seq<Player>, str: seq<int>,
                      solved0: seq<bool>, winner0: seq<Player>, strategy0: seq<int>)
    requires oink.Valid() && |win| == |str| == |solved0| == |winner0| == |strategy0| == oink.game.Size()
    requires ReportedFrom(oink, dom, v, win, str, solved0, winner0, strategy0)
    requires forall u :: u in dom ==> (u >= v <==> u >= v')
    ensures ReportedFrom(oink, dom, v', win, str, solved0, winner0, strategy0)
  {
  }

  method ReportOne(oink: Oink, v: nat, who: Player, to: int, ghost dom: set<nat>, ghost win: seq<Player>, ghost str: seq<int>,
                   ghost solved0: seq<bool>, ghost winner0: seq<Player>, ghost strategy0: seq<int>)
    requires oink.Valid() && |win| == |str| == |solved0| == |winner0| == |strategy0| == oink.game.Size()
    requires ReportedFrom(oink, dom, v + 1, win, str, solved0, winner0, strategy0)
    requires v in dom && v < oink.game.Size() && !solved0[v] && who == win[v]
    requires str[v] == if who == oink.game.owner[v] then to else -1
    modifies oink`pointer, oink.solved, oink.winner, oink.strategy, oink.disabled, oink.todo
    ensures oink.Valid() && ReportedFrom(oink, dom, v, win, str, solved0, winner0, strategy0)
  {
    hide Game.Valid;
    ghost var solved, winner, strategy := oink.solved[..], oink.winner[..], oink.strategy[..];
    oink.Solve(v, who, to);
    forall u | 0 <= u < oink.game.Size()
      ensures oink.solved[u] == (solved0[u] || (u in dom && u >= v))
      ensures oink.winner[u] == if u in dom && u >= v then win[u] else winner0[u]
      ensures oink.strategy[u] == if u in dom && u >= v then str[u] else strategy0[u]
    {
      assert oink.solved[..][u] == solved[v := true][u];
      assert oink.winner[..][u] == winner[v := who][u];
      assert oink.strategy[..][u] == strategy[v := str[v]][u];
    }
  }

  /** Hand the result to Oink, from the last vertex of the current game to the first. */
  method Report(oink: Oink, s: ZLKPPSolver, winningRegion: seq<nat>, player: Player)
    requires oink.Valid() && oink.game == s.game && s.Represents() && s.cur != {}
    requires forall v :: 0 <= v < oink.game.Size() ==> (v in s.cur <==> !oink.solved[v])
    requires Increasing(winningRegion) && Elements(winningRegion) <= s.cur
    requires s.curNodesPrev != oink.todo && s.strategy != oink.strategy && s.curNodesNext != oink.todo
    requires s.curNodesBm != oink.solved && s.curNodesBm != oink.disabled
    modifies oink`pointer, oink.solved, oink.winner, oink.strategy, oink.disabled, oink.todo
    ensures oink.Valid()
    ensures ReportedFrom(oink, s.cur, 0, WinOf(oink.game, player, Elements(winningRegion)),
      Reported(oink.game, WinOf(oink.game, player, Elements(winningRegion)), s.strategy[..]),
      old(oink.solved[..]), old(oink.winner[..]), old(oink.strategy[..]))
  {
    hide Game.Valid, Game.Sorted, Ring, ReportedFrom, Increasing, Remaining;
    ghost var g := oink.game;
    ghost var win := WinOf(g, player, Elements(winningRegion));
    ghost var str := Reported(g, win, s.strategy[..]);
    ghost var solved0, winner0, strategy0 := oink.solved[..], oink.winner[..], oink.strategy[..];
    var k := |winningRegion|;
    FirstFacts(s.cur, s.List());
    PrevBelow(s.cur, s.List(), s.curFirstNode);
    var v := s.curNodesPrev[s.curFirstNode];
    NothingReported(oink, s.cur, v + 1, win, str);
    WholeRegion(winningRegion, s.cur, v);
    while true
      invariant oink.Valid() && v in s.cur && 0 <= k <= |winningRegion|
      invariant ReportedFrom(oink, s.cur, v + 1, win, str, solved0, winner0, strategy0)
      invariant Remaining(winningRegion, k, v)
      decreases v
    {
      var who: Player;
      LastElement(winningRegion, k, v);
      ghost var k0 := k;
      if k > 0 && winningRegion[k - 1] == v {
        who := player;
        k := k - 1;
      } else {
        who := 1 - player;
      }
      ReportOne(oink, v, who, s.strategy[v], s.cur, win, str, solved0, winner0, strategy0);
      PrevBelow(s.cur, s.List(), v);
      if v == s.curFirstNode { break; }
      ReportedShift(oink, s.cur, v, s.curNodesPrev[v] + 1, win, str, solved0, winner0, strategy0);
      NextRemaining(winningRegion, k0, s.cur, v, s.curNodesPrev[v]);
      v := s.curNodesPrev[v];
    }
    ReportedShift(oink, s.cur, v, 0, win, str, solved0, winner0, strategy0);
  }

  lemma NothingReported(oink: Oink, dom: set<nat>, v: nat, win: seq<Player>, str: seq<int>)
    requires oink.Valid() && |win| == |str| == oink.game.Size() && forall u :: u in dom ==> u < v
    ensures ReportedFrom(oink, dom, v, win, str, oink.solved[..], oink.winner[..], oink.strategy[..])
  {
  }

  /** The first `k` elements of the region are those up to `v`. */
  ghost predicate Remaining(region: seq<nat>, k: nat, v: nat)
    requires k <= |region|
  {
    forall j :: 0 <= j < |region| ==> (j < k <==> region[j] <= v)
  }

  lemma WholeRegion(region: seq<nat>, c: set<nat>, v: nat)
    requires Elements(region) <= c && forall x :: x in c ==> x <= v
    ensures Remaining(region, |region|, v)
  {
    forall j | 0 <= j < |region| ensures region[j] <= v { assert region[j] in Elements(region); }
  }

  lemma LastElement(region: seq<nat>, k: nat, v: nat)
    requires Increasing(region) && k <= |region| && Remaining(region, k, v)
    ensures v in Elements(region) <==> k > 0 && region[k - 1] == v
  {
  }

  lemma NextRemaining(region: seq<nat>, k: nat, c: set<nat>, v: nat, v': nat)
    requires Increasing(region) && k <= |region| && Remaining(region, k, v)
    requires Elements(region) <= c && v' < v && forall x :: x in c && x > v' ==> x >= v
    ensures Remaining(region, if k > 0 && region[k - 1] == v then k - 1 else k, v')
  {
    forall j | 0 <= j < |region| ensures region[j] > v' ==> region[j] >= v { assert region[j] in Elements(region); }
  }

  // ---------------------------------------------------------------------------------------------------------
  // The solver within Oink
  // ---------------------------------------------------------------------------------------------------------

  /** All solved vertices are taken out of the current game. */
  method RemoveDisabled(oink: Oink, s: ZLKPPSolver)
    requires oink.Valid() && s.Valid() && s.game == oink.game && s.cur == Vertices(s.game)
    requires s.curNodesBm != oink.disabled && s.curNodesBm != oink.solved
    modifies s`curFirstNode, s`curNumNodes, s`cur, s.curNodesBm, s.curNodesNext, s.curNodesPrev
    ensures s.Valid() && s.cur == Vertices(s.game) - oink.Solved()
  {
    hide Ring;
    ghost var d := oink.solved[..];
    var v := 0;
    while v < oink.game.Size()
      invariant 0 <= v <= oink.game.Size() && s.Valid() && oink.disabled[..] == oink.solved[..] == d
      invariant |d| == oink.game.Size()
      invariant forall u: nat :: u in s.cur <==> u < oink.game.Size() && !(u < v && d[u])
    {
      assert oink.disabled[v] == d[v];
      if oink.disabled[v] {
        assert Elements([v]) == {v};
        s.RemoveNodes([v]);
      }
      v := v + 1;
    }
  }

  /** What `run` demands: some vertex is left, and every vertex that is left has a successor that is left. */
  ghost predicate Runnable(g: Game, dom: set<nat>) {
    g.Valid() && g.Sorted() && dom != {} && dom <= Vertices(g) && Within(g, dom) && NoDeadEnds(g, dom)
  }

  /** A dominion has no more vertices than the precision allows for. */
  lemma PreciseEnough(g: Game, dom: set<nat>, dominion: nat, prec: nat)
    requires Runnable(g, dom) && IsPrecision(prec, g.Size())
    requires dominion == if exists v :: 0 <= v < g.Size() && g.Edge(v, v) then 1 else 2
    ensures prec >= dominion
  {
    var v :| v in dom;
    assert HasSuccessor(g, dom, v);
    var w :| w in dom && g.Edge(v, w);
    assert v < g.Size() && w < g.Size() && (v == w ==> dominion == 1);
  }

  /** Solve what is left. The region that is returned is a trap for the opponent in all variants; the standard variant
      solves the subgame correctly. */
  method Run(oink: Oink, variant: Variant) returns (ghost player: Player, ghost region: set<nat>, ghost str: seq<int>)
    requires oink.Valid() && Runnable(oink.game, Vertices(oink.game) - oink.Solved())
    modifies oink`pointer, oink.solved, oink.winner, oink.strategy, oink.disabled, oink.todo
    ensures oink.Valid() && oink.Solved() == Vertices(oink.game) && |str| == oink.game.Size()
    ensures oink.winner[..] == Merge(old(oink.Solved()), old(oink.winner[..]), WinOf(oink.game, player, region))
    ensures oink.strategy[..] == Merge(old(oink.Solved()), old(oink.strategy[..]), str)
    ensures var dom := Vertices(oink.game) - old(oink.Solved());
      region <= dom && Saturated(oink.game, dom, 1 - player, dom - region)
    ensures variant.Standard? ==>
      CorrectSolution(oink.game, Vertices(oink.game) - old(oink.Solved()), WinOf(oink.game, player, region), str)
  {
    hide Game.Valid, Game.Sorted, Ring, ReportedFrom, Saturated, NoDeadEnds, CorrectSolution, Increasing, Merge, WinOf;
    hide Runnable, Reported, ZLKPPSolver.Clean, ZLKPPSolver.Listed, ZLKPPSolver.Untouched;
    var g := oink.game;
    ghost var dom := Vertices(g) - oink.Solved();
    var s, maxPriority, prec := Prepare(oink, variant);
    var reachedCur: bool, reachedOpo: bool := *, *;
    var win;
    win, reachedCur, reachedOpo := s.Solve(maxPriority, prec, prec, reachedCur, reachedOpo);
    s.ReadyFacts(maxPriority);
    player, region := maxPriority % 2, Elements(win);
    str := Reported(g, WinOf(g, player, region), s.strategy[..]);
    if variant.Standard? { ReportedSolution(g, dom, WinOf(g, player, region), s.strategy[..]); }
    ReportAll(oink, s, win, maxPriority % 2);
  }

  method ReportAll(oink: Oink, s: ZLKPPSolver, win: seq<nat>, player: Player)
    requires oink.Valid() && oink.game == s.game && s.Represents() && s.cur == Vertices(oink.game) - oink.Solved() != {}
    requires Increasing(win) && Elements(win) <= s.cur
    requires s.curNodesPrev != oink.todo && s.strategy != oink.strategy && s.curNodesNext != oink.todo
    requires s.curNodesBm != oink.solved && s.curNodesBm != oink.disabled
    modifies oink`pointer, oink.solved, oink.winner, oink.strategy, oink.disabled, oink.todo
    ensures oink.Valid() && oink.Solved() == Vertices(oink.game)
    ensures oink.winner[..] == Merge(old(oink.Solved()), old(oink.winner[..]), WinOf(oink.game, player, Elements(win)))
    ensures oink.strategy[..] == Merge(old(oink.Solved()), old(oink.strategy[..]),
      Reported(oink.game, WinOf(oink.game, player, Elements(win)), s.strategy[..]))
  {
    hide ReportedFrom, Increasing, Elements, Merge, WinOf, Reported;
    ghost var g, dom := oink.game, s.cur;
    ghost var str := Reported(g, WinOf(g, player, Elements(win)), s.strategy[..]);
    ghost var solved0, winner0, strategy0 := oink.solved[..], oink.winner[..], oink.strategy[..];
    Report(oink, s, win, player);
    AllReported(oink, dom, WinOf(g, player, Elements(win)), str, solved0, winner0, strategy0);
  }

  /** The state of the solver before the recursion starts. */
  method Prepare(oink: Oink, variant: Variant) returns (s: ZLKPPSolver, maxPriority: nat, prec: nat)
    requires oink.Valid() && Runnable(oink.game, Vertices(oink.game) - oink.Solved())
    ensures fresh(s) && fresh(s.curNodesBm) && fresh(s.curNodesNext) && fresh(s.curNodesPrev)
    ensures fresh(s.numSuccessors) && fresh(s.isInAttractor) && fresh(s.strategy)
    ensures s.game == oink.game && s.Ready(maxPriority) && s.cur == Vertices(oink.game) - oink.Solved() != {}
    ensures s.variant == variant && (variant.Standard? ==> s.Exact(prec, prec))
  {
    hide Game.Valid, Ring, NoDeadEnds;
    var g := oink.game;
    ghost var dom := Vertices(g) - oink.Solved();
    assert g.Size() > 0 by { var v :| v in dom; assert v < g.Size(); }
    var dominion := MinDominion(g);
    s := new ZLKPPSolver(g, variant, dominion);
    RemoveDisabled(oink, s);
    maxPriority := Highest(s);
    prec := Precision(g.Size());
    PreciseEnough(g, dom, dominion, prec);
  }

  /** The priority of the last vertex of the current game. */
  method Highest(s: ZLKPPSolver) returns (maxPriority: nat)
    requires s.Valid() && s.minDominion >= 1 && s.cur != {} && NoDeadEnds(s.game, s.cur)
    ensures s.Ready(maxPriority)
  {
    hide Game.Valid, Ring, NoDeadEnds;
    FirstFacts(s.cur, s.List());
    PrevBelow(s.cur, s.List(), s.curFirstNode);
    maxPriority := s.game.priority[s.curNodesPrev[s.curFirstNode]];
  }

  lemma AllReported(oink: Oink, dom: set<nat>, win: seq<Player>, str: seq<int>,
                    solved0: seq<bool>, winner0: seq<Player>, strategy0: seq<int>)
    requires oink.Valid() && |win| == |str| == |solved0| == |winner0| == |strategy0| == oink.game.Size()
    requires ReportedFrom(oink, dom, 0, win, str, solved0, winner0, strategy0) && dom == Vertices(oink.game) - SetOf(solved0)
    ensures oink.Solved() == Vertices(oink.game)
    ensures oink.winner[..] == Merge(SetOf(solved0), winner0, win)
    ensures oink.strategy[..] == Merge(SetOf(solved0), strategy0, str)
  {
  }

  /** Oink::run with the self-loop preprocessor and the standard variant of this solver. */
  method SolveGame(oink: Oink)
    requires oink.Valid() && oink.Sound() && oink.Todo() == [] && oink.Counted(oink.Solved()) && oink.game.Sorted()
    modifies oink`pointer, oink.solved, oink.winner, oink.strategy, oink.disabled, oink.todo, oink.outcount
    ensures oink.Valid() && oink.Todo() == [] && oink.Solved() == Vertices(oink.game)
    ensures Shape(oink.game, Vertices(oink.game), oink.winner[..], oink.strategy[..])
    ensures CorrectSolution(oink.game, Vertices(oink.game), oink.winner[..], oink.strategy[..])
  {
    hide Game.Valid, PartialSolution, AttractorClosed, CorrectSolution, Merge, WinOf, NoDeadEnds, Saturated, Oink.Counted;
    var g := oink.game;
    var _ := oink.SolveSelfloops();
    Checked(oink);
    var solved := GameSolved(oink);
    if solved { return; }
    ghost var s, win, str := oink.Solved(), oink.winner[..], oink.strategy[..];
    RestHasNoDeadEnds(g, s, win);
    SomeLeft(s, Vertices(g));
    ghost var player, region, str';
    player, region, str' := Run(oink, Standard);
    // trash the todo buffer
    oink.pointer := 0;
    Combine(g, s, win, str, WinOf(g, player, region), str');
  }

  /** The whole of it, from a game of which nothing is solved: a correct solution. */
  method SolveNew(g: Game) returns (winner: seq<Player>, strategy: seq<int>)
    requires g.Valid() && g.Sorted() && NoDeadEnds(g, Vertices(g))
    ensures Shape(g, Vertices(g), winner, strategy) && CorrectSolution(g, Vertices(g), winner, strategy)
  {
    hide NoDeadEnds, Game.Valid, Oink.Sound, Oink.Counted, CorrectSolution;
    var oink := NewOink(g);
    SolveGame(oink);
    winner, strategy := oink.winner[..], oink.strategy[..];
  }

  lemma SomeLeft(s: set<nat>, all: set<nat>)
    requires s <= all && s != all
    ensures all - s != {}
  {
    var v :| v in all && v !in s;
    assert v in all - s;
  }
}
