/** The way a game takes through the program: its vertices are sorted, the sorted game is solved, and the vertices are
    put back together with the solution. */
module SortedSolving {
  import opened ParityGames
  import opened Solutions
  import opened Permutations
  import opened GameArrays
  import opened GameRenaming
  import opened OinkFramework
  import opened FPISolver

  /** Nothing but the solution differs. */
  ghost predicate SameGame(s: Store, t: Store) {
    && |s.entries| == |t.entries| && t.outedges == s.outedges && t.inedges == s.inedges
    && forall v :: 0 <= v < |s.entries| ==>
         && t.entries[v].priority == s.entries[v].priority && t.entries[v].owner == s.entries[v].owner
         && t.entries[v].firstout == s.entries[v].firstout && t.entries[v].firstin == s.entries[v].firstin
  }

  lemma SameGameOf(s: Store, t: Store)
    requires SameGame(s, t)
    ensures GameOf(s) == GameOf(t)
  {
  }

  /** Moving the vertices and moving them back restores the game, whatever has become of the solution in between. */
  lemma MovedBackGame(m: seq<nat>, inv: seq<nat>, s: Store, t: Store, u: Store, w: Store)
    requires Inverses(m, inv) && InRange(s) && Moved(m, s, t) && SameGame(t, u) && Moved(inv, u, w)
    ensures SameGame(s, w)
  {
    forall e: int | -1 <= e < |m| ensures Rename(inv, Rename(m, e)) == e { }
    forall i | 0 <= i < |s.outedges| ensures w.outedges[i] == s.outedges[i] { assert Rename(inv, Rename(m, s.outedges[i])) == s.outedges[i]; }
    forall i | 0 <= i < |s.inedges| ensures w.inedges[i] == s.inedges[i] { assert Rename(inv, Rename(m, s.inedges[i])) == s.inedges[i]; }
    forall v | 0 <= v < |m|
      ensures w.entries[v].priority == s.entries[v].priority && w.entries[v].owner == s.entries[v].owner
      ensures w.entries[v].firstout == s.entries[v].firstout && w.entries[v].firstin == s.entries[v].firstin
    {
      assert w.entries[inv[m[v]]] == u.entries[m[v]].(strategy := Rename(inv, u.entries[m[v]].strategy));
      assert t.entries[m[v]] == s.entries[v].(strategy := Rename(m, s.entries[v].strategy));
    }
  }

  lemma RenamedNoDeadEnds(g: Game, h: Game, m: seq<nat>, inv: seq<nat>)
    requires g.Valid() && h.Valid() && Renamed(g, h, m) && Inverses(m, inv) && NoDeadEnds(g, Vertices(g))
    ensures NoDeadEnds(h, Vertices(h))
  {
    hide Game.Valid, Renamed;
    forall x | x in Vertices(h) ensures HasSuccessor(h, Vertices(h), x) { RenamedSuccessor(g, h, m, inv, x); }
  }

  lemma RenamedSuccessor(g: Game, h: Game, m: seq<nat>, inv: seq<nat>, x: nat)
    requires g.Valid() && h.Valid() && Renamed(g, h, m) && Inverses(m, inv) && NoDeadEnds(g, Vertices(g)) && x < h.Size()
    ensures HasSuccessor(h, Vertices(h), x)
  {
    hide Game.Valid;
    var u := inv[x];
    assert HasSuccessor(g, Vertices(g), u);
    var v :| v in Vertices(g) && g.Edge(u, v);
    RenamedEdge(g, h, m, u, v);
    assert h.Edge(x, m[v]);
  }

  /** What is known of the arrays once they are sorted. */
  lemma SortedGame(s: Store, t: Store, m: seq<nat>, inv: seq<nat>, p: seq<nat>)
    requires InRange(s) && Inverses(m, inv) && Moved(inv, s, t) && p == Priorities(t) && Ordered(p)
    requires GameOf(s).Valid() && NoDeadEnds(GameOf(s), Vertices(GameOf(s)))
    ensures GameOf(t).Valid() && GameOf(t).Sorted() && NoDeadEnds(GameOf(t), Vertices(GameOf(t)))
  {
    hide Inverses, Moved, Game.Valid, NoDeadEnds, InRange;
    InversesPerm(m, inv);
    MovedGame(inv, s, t);
    RenamedValid(GameOf(s), GameOf(t), inv);
    RenamedNoDeadEnds(GameOf(s), GameOf(t), inv, m);
  }

  lemma StillUnsolved(s: Store, t: Store, m: seq<nat>, inv: seq<nat>, v: nat)
    requires Inverses(m, inv) && Moved(inv, s, t) && v < |t.entries|
    requires forall i :: 0 <= i < |s.entries| ==> !s.entries[i].solved
    ensures !t.entries[v].solved
  {
    assert t.entries[inv[m[v]]] == s.entries[m[v]].(strategy := Rename(inv, s.entries[m[v]].strategy));
  }

  ghost function WinnersOf(s: Store): (win: seq<Player>)
    ensures |win| == |s.entries|
  {
    seq(|s.entries|, v requires 0 <= v < |s.entries| => s.entries[v].winner)
  }

  ghost function StrategiesOf(s: Store): (str: seq<int>)
    ensures |str| == |s.entries|
  {
    seq(|s.entries|, v requires 0 <= v < |s.entries| => s.entries[v].strategy)
  }

  /** A correct solution in which losers have no strategy names vertices only. */
  lemma SolutionInRange(g: Game, win: seq<Player>, str: seq<int>)
    requires Shape(g, Vertices(g), win, str) && CorrectSolution(g, Vertices(g), win, str)
    requires forall v :: 0 <= v < g.Size() && win[v] != g.owner[v] ==> str[v] == -1
    ensures forall v :: 0 <= v < g.Size() ==> -1 <= str[v] < g.Size()
  {
    hide Game.Valid, CyclesWon;
    forall v | 0 <= v < g.Size() ensures -1 <= str[v] < g.Size() { assert v in Vertices(g); }
  }

  /** A correct solution of the sorted game, moved back, is a correct solution of the original. */
  lemma RestoredCorrect(s: Store, t: Store, u: Store, w: Store, m: seq<nat>, inv: seq<nat>)
    requires Inverses(m, inv) && InRange(s) && Moved(inv, s, t) && SameGame(t, u) && InRange(u) && Moved(m, u, w)
    requires GameOf(s).Valid() && GameOf(u).Valid()
    requires CorrectSolution(GameOf(u), Vertices(GameOf(u)), WinnersOf(u), StrategiesOf(u))
    ensures GameOf(w) == GameOf(s) && Shape(GameOf(s), Vertices(GameOf(s)), WinnersOf(w), StrategiesOf(w))
    ensures CorrectSolution(GameOf(s), Vertices(GameOf(s)), WinnersOf(w), StrategiesOf(w))
  {
    assert RenamedSolution(GameOf(u), m, Vertices(GameOf(u)), WinnersOf(u), StrategiesOf(u),
      Vertices(GameOf(w)), WinnersOf(w), StrategiesOf(w));
    hide Moved, InRange, Game.Valid, SameGame, GameOf, RenamedSolution, CorrectSolution;
    InversesPerm(m, inv);
    MovedBackGame(inv, m, s, t, u, w);
    SameGameOf(s, w);
    MovedGame(m, u, w);
    RenamedCorrectIff(GameOf(u), GameOf(w), m, inv, Vertices(GameOf(u)), WinnersOf(u), StrategiesOf(u),
      Vertices(GameOf(w)), WinnersOf(w), StrategiesOf(w));
  }

  lemma Columns(a: GameArrays)
    requires a.Ok()
    ensures WinnersOf(a.Contents()) == a.winner[..] && StrategiesOf(a.Contents()) == a.strategy[..]
    ensures Priorities(a.Contents()) == a.priority[..] && |a.Contents().entries| == a.solved.Length == a.priority.Length
    ensures forall v :: 0 <= v < a.solved.Length ==> a.Contents().entries[v].solved == a.solved[v]
  {
  }

  /** Solve the sorted game in its own arrays. */
  method SolveSorted(a: GameArrays, g: Game)
    requires a.Ok() && InRange(a.Contents()) && g == GameOf(a.Contents())
    requires g.Valid() && g.Sorted() && NoDeadEnds(g, Vertices(g))
    requires forall v :: 0 <= v < a.solved.Length ==> !a.solved[v]
    modifies a.solved, a.winner, a.strategy
    ensures SameGame(old(a.Contents()), a.Contents()) && InRange(a.Contents())
    ensures Shape(g, Vertices(g), a.winner[..], a.strategy[..])
    ensures CorrectSolution(g, Vertices(g), a.winner[..], a.strategy[..])
  {
    hide Game.Valid, NoDeadEnds, GameOf, CorrectSolution, Oink.Sound, Oink.Counted;
    ghost var t := a.Contents();
    var oink := new Oink(g, a.solved, a.winner, a.strategy);
    assert oink.Solved() == {};
    StartsSound(oink);
    SolveGame(oink);
    AllVertices(oink);
    SolutionInRange(g, a.winner[..], a.strategy[..]);
  }

  lemma AllVertices(oink: Oink)
    requires oink.Valid() && oink.Solved() == Vertices(oink.game)
    ensures forall v :: 0 <= v < oink.game.Size() ==> oink.solved[v]
  {
    forall v | 0 <= v < oink.game.Size() ensures oink.solved[v] { assert v in Vertices(oink.game); }
  }

  lemma NoneSolved(s: Store, t: Store, m: seq<nat>, inv: seq<nat>)
    requires Inverses(m, inv) && Moved(inv, s, t)
    requires forall i :: 0 <= i < |s.entries| ==> !s.entries[i].solved
    ensures forall i :: 0 <= i < |t.entries| ==> !t.entries[i].solved
  {
    forall i | 0 <= i < |t.entries| ensures !t.entries[i].solved { StillUnsolved(s, t, m, inv, i); }
  }

  /** Sort the game, solve the sorted game, and put its vertices back: the game is the original one again, and solved. */
  method SortSolveRestore(a: GameArrays, mapping: array<nat>)
    requires a.Ok() && a.Apart(mapping) && mapping.Length == a.priority.Length && InRange(a.Contents())
    requires a.isOrdered ==> Ordered(a.priority[..])
    requires GameOf(a.Contents()).Valid() && NoDeadEnds(GameOf(a.Contents()), Vertices(GameOf(a.Contents())))
    requires forall v :: 0 <= v < a.solved.Length ==> !a.solved[v]
    modifies mapping, a.priority, a.owner, a.firstouts, a.outcount, a.firstins, a.incount, a.solved, a.winner, a.strategy
    modifies a.outedges, a.inedges, a`isOrdered
    ensures GameOf(a.Contents()) == old(GameOf(a.Contents()))
    ensures var g := GameOf(a.Contents());
      && Shape(g, Vertices(g), a.winner[..], a.strategy[..])
      && CorrectSolution(g, Vertices(g), a.winner[..], a.strategy[..])
  {
    hide Perm, InRange, Moved, Ordered, Inverses, GameArrays.Contents, Game.Valid, NoDeadEnds, GameOf, CorrectSolution;
    ghost var s := a.Contents();
    Columns(a);
    a.Sort(mapping);
    Columns(a);
    ghost var t, m := a.Contents(), mapping[..];
    ghost var inv :| Inverses(m, inv) && Moved(inv, s, t);
    InversesPerm(m, inv);
    MovedInRange(inv, s, t);
    NoneSolved(s, t, m, inv);
    SortedGame(s, t, m, inv, a.priority[..]);
    var g := GameOf(a.Contents());
    SolveSorted(a, g);
    ghost var u := a.Contents();
    SameGameOf(t, u);
    Columns(a);
    a.Permute(mapping);
    Columns(a);
    RestoredCorrect(s, t, u, a.Contents(), m, inv);
  }
}
