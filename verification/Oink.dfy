/** The framework that solvers report to: `solve` marks vertices, `flush` attracts to what has been marked. */
module OinkFramework {
  import opened ParityGames
  import opened Solutions
  import opened EdgeCounting

  /** How many edges of the list lead outside `p`. */
  ghost function Pending(edges: seq<nat>, p: set<nat>): nat {
    |edges| - CountIn(edges, p)
  }

  lemma Distinct(s: seq<nat>, n: nat, x: nat)
    requires forall i, j :: 0 <= i < j < |s| ==> s[i] != s[j]
    requires forall i :: 0 <= i < |s| ==> s[i] < n && s[i] != x
    requires x < n
    ensures |s| < n
  {
    if |s| >= n {
      var i, j := Repetition(s + [x], n);
      assert false;
    }
  }

  /** When the counter of `u` reaches zero, every successor has been solved for the opponent of its owner. */
  lemma Exhausted(g: Game, s: set<nat>, win: seq<Player>, p: set<nat>, v: nat, u: nat, seen: seq<nat>)
    requires g.Valid() && Within(g, s) && |win| == g.Size() && p <= s && v in s && v !in p
    requires Repelled(g, s, p, win) && u < g.Size() && u !in s && win[v] != g.owner[u]
    requires seen <= g.ins[v] && Pending(g.outs[u], p) == multiset(seen)[u]
    ensures forall x: nat :: g.Edge(u, x) ==> x in s && win[x] == win[v]
  {
    CountAdd(g.outs[u], p, v);
    CountAll(g.outs[u], p + {v});
    assert g.ins[v] == seen + g.ins[v][|seen|..];
    assert multiset(g.ins[v])[u] == multiset(g.outs[u])[v];
  }

  // ---------------------------------------------------------------------------------------------------------
  // The state
  // ---------------------------------------------------------------------------------------------------------

  function SetOf(b: seq<bool>): set<nat> {
    set v: nat | v < |b| && b[v]
  }

  /** The loop at `v` decides who wins it: its owner wins by it, or has no other move. */
  predicate LoopDecides(g: Game, v: nat)
    requires v < g.Size() && |g.outs| == |g.owner| == g.Size()
  {
    g.Edge(v, v) && (g.owner[v] == g.Parity(v) || |g.outs[v]| == 1)
  }

  /** The unsolved vertices below `n` that their loops decide. */
  ghost function Loops(g: Game, solved: seq<bool>, n: nat): set<nat>
    requires n <= |solved| == g.Size() && |g.outs| == |g.owner| == g.Size()
  {
    set v: nat | v < n && !solved[v] && LoopDecides(g, v)
  }

  /** The player of the parity of `v` wins `v` by its loop. */
  ghost predicate LoopSolved(g: Game, v: nat, solved: seq<bool>, win: seq<Player>, str: seq<int>)
    requires v < |solved| == |win| == |str| == |g.owner| == g.Size()
  {
    solved[v] && win[v] == g.Parity(v) && str[v] == if g.owner[v] == g.Parity(v) then v else -1
  }

  ghost predicate LoopsSolved(g: Game, before: seq<bool>, n: nat, solved: seq<bool>, win: seq<Player>, str: seq<int>)
    requires n <= |before| == |solved| == |win| == |str| == |g.owner| == |g.outs| == g.Size()
  {
    forall v :: v in Loops(g, before, n) ==> LoopSolved(g, v, solved, win, str)
  }

  lemma LoopsNext(g: Game, solved: seq<bool>, n: nat)
    requires n < |solved| == g.Size() && |g.outs| == |g.owner| == g.Size()
    ensures Loops(g, solved, n + 1) == Loops(g, solved, n) + if !solved[n] && LoopDecides(g, n) then {n} else {}
    ensures |Loops(g, solved, n + 1)| == |Loops(g, solved, n)| + if !solved[n] && LoopDecides(g, n) then 1 else 0
  {
    assert Loops(g, solved, n + 1) == Loops(g, solved, n) + if !solved[n] && LoopDecides(g, n) then {n} else {};
    assert n !in Loops(g, solved, n);
  }

  lemma LoopIn(g: Game, solved: seq<bool>, v: nat)
    requires v < |solved| == |g.owner| == |g.outs| == g.Size() && !solved[v] && LoopDecides(g, v)
    ensures v in Loops(g, solved, g.Size())
  {
  }

  /** What was solved stays as it was, and what has been solved since then has a strategy only if its owner wins. */
  ghost predicate Remains(owner: seq<Player>, s: seq<bool>, w: seq<Player>, t: seq<int>, s': seq<bool>, w': seq<Player>, t': seq<int>) {
    && |s| == |w| == |t| == |s'| == |w'| == |t'| == |owner|
    && forall v :: 0 <= v < |s| ==>
         if s[v] then s'[v] && w'[v] == w[v] && t'[v] == t[v]
         else s'[v] && w'[v] != owner[v] ==> t'[v] == -1
  }

  lemma StaysTwice(owner: seq<Player>, s: seq<bool>, w: seq<Player>, t: seq<int>, s': seq<bool>, w': seq<Player>, t': seq<int>,
                   s'': seq<bool>, w'': seq<Player>, t'': seq<int>)
    requires Remains(owner, s, w, t, s', w', t') && Remains(owner, s', w', t', s'', w'', t'')
    ensures Remains(owner, s, w, t, s'', w'', t'')
  {
  }

  lemma StaysSolved(owner: seq<Player>, s: seq<bool>, w: seq<Player>, t: seq<int>, s': seq<bool>, w': seq<Player>, t': seq<int>)
    requires Remains(owner, s, w, t, s', w', t')
    ensures |s| == |s'| && forall v :: 0 <= v < |s| && s[v] ==> s'[v]
  {
  }

  lemma MoreLoops(g: Game, s0: seq<bool>, n: nat, s: seq<bool>, w: seq<Player>, t: seq<int>, s': seq<bool>, w': seq<Player>, t': seq<int>)
    requires n < |s0| == |s| == |g.outs| == |g.owner| == g.Size() && Remains(g.owner, s, w, t, s', w', t')
    requires LoopsSolved(g, s0, n, s, w, t) && (!s0[n] && LoopDecides(g, n) ==> LoopSolved(g, n, s', w', t'))
    ensures LoopsSolved(g, s0, n + 1, s', w', t')
  {
    forall v | v in Loops(g, s0, n + 1) ensures LoopSolved(g, v, s', w', t') {
      if v < n { assert v in Loops(g, s0, n); }
    }
  }

  lemma LoopsStay(g: Game, s0: seq<bool>, s: seq<bool>, w: seq<Player>, t: seq<int>, s': seq<bool>, w': seq<Player>, t': seq<int>)
    requires |s0| == |s| == |g.outs| == |g.owner| == g.Size() && Remains(g.owner, s, w, t, s', w', t')
    requires LoopsSolved(g, s0, g.Size(), s, w, t)
    ensures LoopsSolved(g, s0, g.Size(), s', w', t')
  {
  }

  class Oink {
    const game: Game
    const solved: array<bool>
    const winner: array<Player>
    const strategy: array<int>
    const disabled: array<bool>
    const outcount: array<int>
    const todo: array<nat>
    var pointer: nat

    /** Outside the per-component mode the disabled vertices are exactly the solved ones. */
    ghost predicate Valid()
      reads this, solved, disabled, todo
    {
      && game.Valid()
      && winner.Length == strategy.Length == solved.Length == disabled.Length == outcount.Length == todo.Length == game.Size()
      && solved != disabled && strategy != outcount
      && disabled[..] == solved[..]
      && pointer <= todo.Length
      && (forall i :: 0 <= i < pointer ==> todo[i] < game.Size() && solved[todo[i]])
      && (forall i, j :: 0 <= i < j < pointer ==> todo[i] != todo[j])
    }

    ghost function Solved(): set<nat>
      reads solved
    {
      SetOf(solved[..])
    }

    ghost function Todo(): seq<nat>
      reads this, todo
      requires pointer <= todo.Length
    {
      todo[..pointer]
    }

    method Solve(node: nat, win: Player, str: int)
      requires Valid() && node < game.Size() && !solved[node]
      modifies this`pointer, solved, winner, strategy, disabled, todo
      ensures Valid()
      ensures solved[..] == old(solved[..])[node := true]
      ensures winner[..] == old(winner[..])[node := win]
      ensures strategy[..] == old(strategy[..])[node := if win == game.owner[node] then str else -1]
      ensures Todo() == old(Todo()) + [node]
    {
      Distinct(todo[..pointer], game.Size(), node);
      solved[node] := true;
      winner[node] := win;
      strategy[node] := if win == game.owner[node] then str else -1;
      disabled[node] := true;
      todo[pointer] := node;
      pointer := pointer + 1;
    }
  
    /** Work on a game whose (partial) solution is kept in the given arrays. */
    constructor (g: Game, solved: array<bool>, winner: array<Player>, strategy: array<int>)
      requires g.Valid() && solved.Length == winner.Length == strategy.Length == g.Size()
      ensures Valid() && Todo() == []
      ensures game == g && this.solved == solved && this.winner == winner && this.strategy == strategy
      ensures fresh(disabled) && fresh(outcount) && fresh(todo)
      ensures forall u :: 0 <= u < g.Size() ==> outcount[u] == Pending(g.outs[u], Solved())
    {
      this.game, this.solved, this.winner, this.strategy := g, solved, winner, strategy;
      var n := g.Size();
      var d, c := new bool[n], new int[n];
      this.disabled, this.outcount, this.todo := d, c, new nat[n];
      this.pointer := 0;
      new;
      for i := 0 to n
        invariant pointer == 0 && forall k :: 0 <= k < i ==> disabled[k] == solved[k]
      {
        disabled[i] := solved[i];
      }
      assert disabled[..] == solved[..];
      for i := 0 to n
        invariant pointer == 0 && disabled[..] == solved[..]
        invariant forall u :: 0 <= u < i ==> outcount[u] == Pending(g.outs[u], Solved())
      {
        outcount[i] := 0;
        var j := |g.outs[i]|;
        while j > 0
          invariant 0 <= j <= |g.outs[i]| && pointer == 0 && disabled[..] == solved[..]
          invariant outcount[i] == Pending(g.outs[i][j..], Solved())
          invariant forall u :: 0 <= u < i ==> outcount[u] == Pending(g.outs[u], Solved())
        {
          j := j - 1;
          assert g.outs[i][j..] == [g.outs[i][j]] + g.outs[i][j + 1..];
          assert disabled[g.outs[i][j]] == disabled[..][g.outs[i][j]];
          if !disabled[g.outs[i][j]] { outcount[i] := outcount[i] + 1; }
        }
        assert g.outs[i][0..] == g.outs[i];
      }
    }

    /** Every unsolved vertex resists the part `p` of the solved vertices that has been taken off the queue, and
        `outcount` is the number of its edges that lead outside `p`. */
    ghost predicate Counted(p: set<nat>)
      requires Valid()
      reads this, solved, disabled, todo, winner, outcount
    {
      && p <= Solved()
      && (forall v :: v in Solved() <==> v in p || v in Todo())
      && (forall v :: v in Todo() ==> v !in p)
      && Repelled(game, Solved(), p, winner[..])
      && (forall u :: 0 <= u < game.Size() && !solved[u] ==> outcount[u] == Pending(game.outs[u], p) > 0)
    }

    ghost predicate Kept(solved0: seq<bool>, winner0: seq<Player>, strategy0: seq<int>)
      reads solved, winner, strategy
    {
      Remains(game.owner, solved0, winner0, strategy0, solved[..], winner[..], strategy[..])
    }

    /** As `Counted`, while the predecessors of `v` are being attracted and the edges from `seen` are counted already. */
    ghost predicate Scanned(p: set<nat>, v: nat, seen: seq<nat>)
      requires Valid() && v < game.Size()
      reads this, solved, disabled, todo, winner, outcount
    {
      && p <= Solved() && v in Solved() && v !in p
      && (forall x :: x in Solved() <==> x in p || x == v || x in Todo())
      && (forall x :: x in Todo() ==> x !in p && x != v)
      && Repelled(game, Solved(), p, winner[..])
      && (forall u :: 0 <= u < game.Size() && !solved[u] ==>
            && outcount[u] == Pending(game.outs[u], p) - multiset(seen)[u] > 0
            && (u in seen ==> winner[v] != game.owner[u]))
    }

    lemma KeptSame()
      requires Valid()
      ensures Kept(solved[..], winner[..], strategy[..])
    {
    }

    ghost predicate Sound()
      requires Valid()
      reads this, solved, disabled, todo, winner, strategy
    {
      PartialSolution(game, Solved(), winner[..], strategy[..])
    }

    /** Solve the attracted vertex `u`. */
    method Join(u: nat, win: Player, to: int)
      requires Valid() && Sound() && u < game.Size() && !solved[u]
      requires if win == game.owner[u]
        then to >= 0 && to in Solved() && game.Edge(u, to) && winner[to] == win
        else to == -1 && forall x: nat :: game.Edge(u, x) ==> x in Solved() && winner[x] == win
      modifies this`pointer, solved, winner, strategy, disabled, todo
      ensures Valid() && Sound()
      ensures Solved() == old(Solved()) + {u}
      ensures Todo() == old(Todo()) + [u]
      ensures winner[..] == old(winner[..])[u := win]
      ensures solved[..] == old(solved[..])[u := true]
      ensures strategy[..] == old(strategy[..])[u := to]
      ensures Kept(old(solved[..]), old(winner[..]), old(strategy[..]))
    {
      AttractOne(game, Solved(), winner[..], strategy[..], u, win, to);
      hide PartialSolution;
      Solve(u, win, to);
      assert Solved() == old(Solved()) + {u};
    }

    /** One edge from `from` to the solved vertex `v`. */
    method Consider(from: nat, v: nat, ghost p: set<nat>, ghost seen: seq<nat>)
      requires Valid() && Sound() && v < game.Size() && Scanned(p, v, seen)
      requires seen + [from] <= game.ins[v]
      modifies this`pointer, solved, winner, strategy, disabled, todo, outcount
      ensures Valid() && Sound() && Scanned(p, v, seen + [from])
      ensures Kept(old(solved[..]), old(winner[..]), old(strategy[..]))
    {
      assert from == (seen + [from])[|seen|] == game.ins[v][|seen|];
      KeptSame();
      hide Sound, Game.Valid, Kept;
      InsOuts(game, from, v);
      if !solved[from] && !disabled[from] {
        if game.owner[from] == winner[v] {
          Join(from, winner[v], v);
        } else {
          CountDown(from, v, p, seen);
        }
      }
    }

    /** One edge less for the opponent of the winner of `v` to escape by. */
    method CountDown(from: nat, v: nat, ghost p: set<nat>, ghost seen: seq<nat>)
      requires Valid() && Sound() && v < game.Size() && Scanned(p, v, seen)
      requires from < game.Size() && seen + [from] <= game.ins[v]
      requires !solved[from] && game.owner[from] != winner[v]
      modifies this`pointer, solved, winner, strategy, disabled, todo, outcount
      ensures Valid() && Sound() && Scanned(p, v, seen + [from])
      ensures Kept(old(solved[..]), old(winner[..]), old(strategy[..]))
    {
      hide Sound, Game.Valid;
      Sizes(game);
      outcount[from] := outcount[from] - 1;
      if outcount[from] == 0 {
        Exhausted(game, Solved(), winner[..], p, v, from, seen + [from]);
        Join(from, winner[v], -1);
      }
    }

    /** Attract the predecessors of `v`, which has just been taken off the queue. */
    method AttractTo(v: nat, ghost p: set<nat>)
      requires Valid() && Sound() && v < game.Size() && Scanned(p, v, [])
      modifies this`pointer, solved, winner, strategy, disabled, todo, outcount
      ensures Valid() && Sound() && Counted(p + {v})
      ensures Kept(old(solved[..]), old(winner[..]), old(strategy[..]))
    {
      hide Sound, Scanned, Counted;
      var ins := game.ins[v];
      var j := 0;
      while j < |ins|
        invariant j <= |ins|
        invariant Valid() && Sound() && Scanned(p, v, ins[..j])
        invariant Kept(old(solved[..]), old(winner[..]), old(strategy[..]))
      {
        assert ins[..j + 1] == ins[..j] + [ins[j]];
        Consider(ins[j], v, p, ins[..j]);
        j := j + 1;
      }
      assert ins[..j] == ins;
      ScannedAll(p, v);
    }

    lemma ScannedAll(p: set<nat>, v: nat)
      requires Valid() && v < game.Size() && Scanned(p, v, game.ins[v])
      ensures Counted(p + {v})
    {
      forall u | 0 <= u < game.Size() && !solved[u]
        ensures outcount[u] == Pending(game.outs[u], p + {v}) > 0
        ensures game.Edge(u, v) ==> winner[v] != game.owner[u]
      {
        CountAdd(game.outs[u], p, v);
        InsOuts(game, u, v);
      }
    }

    /** Take a vertex off the queue. */
    method Pop(ghost p: set<nat>) returns (v: nat)
      requires Valid() && Sound() && Counted(p) && pointer != 0
      modifies this`pointer
      ensures Valid() && Sound() && v < game.Size() && Scanned(p, v, [])
    {
      hide PartialSolution;
      ghost var before := Todo();
      pointer := pointer - 1;
      v := todo[pointer];
      assert before == Todo() + [v];
      assert v == before[|before| - 1];
    }

    lemma EmptyQueue(p: set<nat>)
      requires Valid() && Counted(p) && Todo() == []
      ensures p == Solved() && AttractorClosed(game, Solved(), winner[..])
    {
      forall u | 0 <= u < game.Size() && u !in Solved() ensures exists v :: v !in Solved() && game.Edge(u, v) {
        CountAll(game.outs[u], p);
        var k :| 0 <= k < |game.outs[u]| && game.outs[u][k] !in p;
        assert game.Edge(u, game.outs[u][k]);
      }
    }

    /** The queue is worked off; afterwards the solved part is closed under both attractors. */
    method Flush(ghost p: set<nat>)
      requires Valid() && Sound() && Counted(p)
      modifies this`pointer, solved, winner, strategy, disabled, todo, outcount
      ensures Valid() && Sound() && Todo() == [] && Counted(Solved())
      ensures AttractorClosed(game, Solved(), winner[..])
      ensures Kept(old(solved[..]), old(winner[..]), old(strategy[..]))
    {
      hide Sound, Counted, AttractorClosed;
      ghost var q := p;
      while pointer != 0
        invariant Valid() && Sound() && Counted(q)
        invariant Kept(old(solved[..]), old(winner[..]), old(strategy[..]))
        decreases Vertices(game) - q
      {
        var v := Pop(q);
        assert v !in q;
        AttractTo(v, q);
        q := q + {v};
      }
      EmptyQueue(q);
    }
  
    /** Solve the vertices with a loop that decides them at once, then flush. */
    method SolveSelfloops() returns (res: nat)
      requires Valid() && Sound() && Todo() == [] && Counted(Solved())
      modifies this`pointer, solved, winner, strategy, disabled, todo, outcount
      ensures Valid() && Sound() && Todo() == [] && Counted(Solved())
      ensures AttractorClosed(game, Solved(), winner[..])
      ensures Kept(old(solved[..]), old(winner[..]), old(strategy[..]))
      ensures forall v :: 0 <= v < game.Size() && !solved[v] && game.Edge(v, v) ==>
        game.owner[v] != game.Parity(v) && |game.outs[v]| != 1
      ensures res == |Loops(game, old(solved[..]), game.Size())|
      ensures LoopsSolved(game, old(solved[..]), game.Size(), solved[..], winner[..], strategy[..])
      ensures res == 0 ==> solved[..] == old(solved[..])
    {
      hide Sound, Counted, AttractorClosed, Loops, LoopsSolved, LoopSolved, Remains;
      ghost var p, s, w0, t0 := Solved(), solved[..], winner[..], strategy[..];
      res := 0;
      NoLoops(s);
      for v := 0 to game.Size()
        invariant Valid() && Sound() && Counted(p)
        invariant Remains(game.owner, s, w0, t0, solved[..], winner[..], strategy[..])
        invariant forall u :: v <= u < game.Size() ==> solved[u] == s[u]
        invariant res == |Loops(game, s, v)|
        invariant LoopsSolved(game, s, v, solved[..], winner[..], strategy[..])
        invariant res == 0 ==> Todo() == [] && solved[..] == s
      {
        ghost var b, w, t := solved[..], winner[..], strategy[..];
        var one := SolveLoopAt(v, p);
        LoopsNext(game, s, v);
        StaysTwice(game.owner, s, w0, t0, b, w, t, solved[..], winner[..], strategy[..]);
        MoreLoops(game, s, v, b, w, t, solved[..], winner[..], strategy[..]);
        res := res + one;
      }
      if res != 0 {
        ghost var b, w, t := solved[..], winner[..], strategy[..];
        Flush(p);
        StaysTwice(game.owner, s, w0, t0, b, w, t, solved[..], winner[..], strategy[..]);
        LoopsStay(game, s, b, w, t, solved[..], winner[..], strategy[..]);
      } else {
        EmptyQueue(p);
      }
      StaysSolved(game.owner, s, w0, t0, solved[..], winner[..], strategy[..]);
      AllLoopsDecided(s);
    }

    lemma NoLoops(s: seq<bool>)
      requires Valid() && |s| == game.Size()
      ensures |Loops(game, s, 0)| == 0 && LoopsSolved(game, s, 0, solved[..], winner[..], strategy[..])
      ensures Remains(game.owner, solved[..], winner[..], strategy[..], solved[..], winner[..], strategy[..])
    {
      assert Loops(game, s, 0) == {};
    }

    lemma AllLoopsDecided(s0: seq<bool>)
      requires Valid() && |s0| == game.Size() && (forall v :: 0 <= v < game.Size() && s0[v] ==> solved[v])
      requires LoopsSolved(game, s0, game.Size(), solved[..], winner[..], strategy[..])
      ensures forall v :: 0 <= v < game.Size() && !solved[v] && game.Edge(v, v) ==>
        game.owner[v] != game.Parity(v) && |game.outs[v]| != 1
    {
      hide Loops;
      forall v: nat | v < game.Size() && !solved[v] ensures !LoopDecides(game, v) {
        if LoopDecides(game, v) {
          LoopIn(game, s0, v);
          assert false;
        }
      }
    }

    /** One turn of the loop. */
    method SolveLoopAt(v: nat, ghost p: set<nat>) returns (one: nat)
      requires Valid() && Sound() && Counted(p) && v < game.Size()
      modifies this`pointer, solved, winner, strategy, disabled, todo
      ensures Valid() && Sound() && Counted(p)
      ensures Kept(old(solved[..]), old(winner[..]), old(strategy[..]))
      ensures one == if !old(solved[v]) && LoopDecides(game, v) then 1 else 0
      ensures if one == 1 then
        solved[..] == old(solved[..])[v := true] && LoopSolved(game, v, solved[..], winner[..], strategy[..])
      else
        solved[..] == old(solved[..]) && Todo() == old(Todo())
    {
      hide Sound, Counted;
      one := 0;
      if !disabled[v] && game.Edge(v, v) {
        if game.owner[v] == game.Parity(v) {
          SolveLoop(v, game.owner[v], v, p);
          one := 1;
        } else if |game.outs[v]| == 1 {
          SolveLoop(v, 1 - game.owner[v], -1, p);
          one := 1;
        }
      }
    }

    method SolveLoop(v: nat, win: Player, to: int, ghost p: set<nat>)
      requires Valid() && Sound() && Counted(p) && v < game.Size() && !solved[v]
      requires game.Edge(v, v) && win == game.Parity(v)
      requires if win == game.owner[v] then to == v else to == -1 && |game.outs[v]| == 1
      modifies this`pointer, solved, winner, strategy, disabled, todo
      ensures Valid() && Sound() && Counted(p)
      ensures Kept(old(solved[..]), old(winner[..]), old(strategy[..]))
      ensures solved[..] == old(solved[..])[v := true] && LoopSolved(game, v, solved[..], winner[..], strategy[..])
    {
      LoopDominion(game, Solved(), winner[..], strategy[..], v, win, to);
      hide PartialSolution, Game.Valid;
      Solve(v, win, to);
      assert Solved() == old(Solved()) + {v};
    }
  }

  /** A new Oink on an unsolved game without dead ends: the solved part is sound and flushed, as there is none. */
  lemma StartsSound(oink: Oink)
    requires oink.Valid() && oink.Todo() == [] && oink.Solved() == {} && NoDeadEnds(oink.game, Vertices(oink.game))
    requires forall u :: 0 <= u < oink.game.Size() ==> oink.outcount[u] == Pending(oink.game.outs[u], {})
    ensures oink.Sound() && oink.Counted(oink.Solved())
  {
    var g := oink.game;
    forall w ensures !ClosedWalk(g, {}, oink.winner[..], oink.strategy[..], w) {
      if |w| >= 2 { assert !Move(g, {}, oink.winner[..], oink.strategy[..], w[0], w[1]); }
    }
    forall u | 0 <= u < g.Size() ensures oink.outcount[u] > 0 {
      CountAll(g.outs[u], {});
      assert u in Vertices(g) && HasSuccessor(g, Vertices(g), u);
    }
  }

  /** Oink::Oink on a game of which nothing is solved. */
  method NewOink(g: Game) returns (oink: Oink)
    requires g.Valid() && NoDeadEnds(g, Vertices(g))
    ensures oink.game == g && oink.Valid() && oink.Sound() && oink.Todo() == [] && oink.Counted(oink.Solved())
    ensures oink.Solved() == {} && fresh(oink) && fresh(oink.disabled) && fresh(oink.outcount) && fresh(oink.todo)
    ensures fresh(oink.solved) && fresh(oink.winner) && fresh(oink.strategy)
  {
    var n := g.Size();
    var solved, winner, strategy := new bool[n](_ => false), new Player[n](_ => 0), new int[n](_ => -1);
    oink := new Oink(g, solved, winner, strategy);
    assert oink.Solved() == {};
    StartsSound(oink);
  }

  lemma Checked(oink: Oink)
    requires oink.Valid() && oink.Sound()
    ensures oink.game.Valid() && PartialSolution(oink.game, oink.Solved(), oink.winner[..], oink.strategy[..])
    ensures Shape(oink.game, oink.Solved(), oink.winner[..], oink.strategy[..])
    ensures CorrectSolution(oink.game, oink.Solved(), oink.winner[..], oink.strategy[..])
    ensures Within(oink.game, oink.Solved()) && |oink.winner[..]| == |oink.strategy[..]| == oink.game.Size()
  {
  }

  /** Is there nothing left to solve? */
  method GameSolved(oink: Oink) returns (all: bool)
    requires oink.Valid()
    ensures all <==> oink.Solved() == Vertices(oink.game)
  {
    for v := 0 to oink.game.Size()
      invariant forall u :: 0 <= u < v ==> oink.solved[u]
    {
      if !oink.solved[v] {
        assert v in Vertices(oink.game) && v !in oink.Solved();
        return false;
      }
    }
    all := true;
  }

  /** A vertex that its owner can win by a loop, or that cannot leave a lost loop, is a dominion of its own. */
  lemma LoopDominion(g: Game, s: set<nat>, win: seq<Player>, str: seq<int>, v: nat, p: Player, to: int)
    requires PartialSolution(g, s, win, str) && v < g.Size() && v !in s
    requires g.Edge(v, v) && p == g.Parity(v)
    requires if p == g.owner[v] then to == v else |g.outs[v]| == 1
    ensures PartialSolution(g, s + {v}, win[v := p], str[v := to])
  {
    var t, win', str' := s + {v}, win[v := p], str[v := to];
    assert p != g.owner[v] ==> forall x :: g.Edge(v, x) ==> x == v;
    assert RegionsClosed(g, t, win', str');
    forall w | ClosedWalk(g, t, win', str', w) ensures Won(g, win', w) {
      WalkInside(g, t, win', str', w);
      ClosedWalkStays(g, t, win', str', s, w);
      if w[0] in s {
        WalkRestricts(g, t, win', str', s, win, str, w);
        assert Won(g, win, w);
      } else {
        assert forall k :: 0 <= k < |w| ==> w[k] == v;
      }
    }
  }
}
