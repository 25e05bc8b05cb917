/** Parity games, strategies, and what it means to solve a game.

    A vertex is an index into the parallel sequences of a `Game`. Even is player 0 and Odd is player 1.
    A closed walk is won by the parity of the highest priority on it. */
module ParityGames {

  type Player = p: nat | p < 2

  datatype Game = Game(priority: seq<nat>, owner: seq<Player>, outs: seq<seq<nat>>, ins: seq<seq<nat>>)
  {
    function Size(): nat { |priority| }

    /** The parallel sequences agree, edges stay inside, and `ins` is the transpose of `outs` with multiplicities. */
    ghost predicate Valid() {
      && |owner| == |outs| == |ins| == Size()
      && (forall u, k :: 0 <= u < Size() && 0 <= k < |outs[u]| ==> outs[u][k] < Size())
      && (forall v, k :: 0 <= v < Size() && 0 <= k < |ins[v]| ==> ins[v][k] < Size())
      && (forall u, v :: 0 <= u < Size() && 0 <= v < Size() ==> multiset(ins[v])[u] == multiset(outs[u])[v])
    }

    /** Vertices are ordered by priority, as every solver expects. */
    ghost predicate Sorted() {
      forall u, v :: 0 <= u <= v < Size() ==> priority[u] <= priority[v]
    }

    function Parity(v: nat): Player
      requires v < Size()
    {
      priority[v] % 2
    }

    predicate Edge(u: nat, v: nat)
      requires u < |outs|
    {
      v in outs[u]
    }
  }

  lemma Sizes(g: Game)
    requires g.Valid()
    ensures |g.owner| == |g.outs| == |g.ins| == g.Size()
  {
  }

  /** The transpose relation between the two edge lists. */
  lemma InsOuts(g: Game, u: nat, v: nat)
    requires g.Valid() && u < g.Size() && v < g.Size()
    ensures u in g.ins[v] <==> g.Edge(u, v)
  {
    assert multiset(g.ins[v])[u] == multiset(g.outs[u])[v];
    assert u in g.ins[v] <==> u in multiset(g.ins[v]);
    assert v in g.outs[u] <==> v in multiset(g.outs[u]);
  }

  /** Every listed predecessor has an edge. */
  lemma EdgeBack(g: Game, v: nat, j: nat)
    requires g.Valid() && v < g.Size() && j < |g.ins[v]|
    ensures g.ins[v][j] < g.Size() && g.Edge(g.ins[v][j], v)
  {
    InsOuts(g, g.ins[v][j], v);
  }

  lemma EdgeInside(g: Game, u: nat, v: nat)
    requires g.Valid() && u < g.Size() && g.Edge(u, v)
    ensures v < g.Size()
  {
    var k :| 0 <= k < |g.outs[u]| && g.outs[u][k] == v;
  }

  ghost predicate Within(g: Game, dom: set<nat>) {
    forall v :: v in dom ==> v < g.Size()
  }

  ghost predicate HasSuccessor(g: Game, dom: set<nat>, u: nat)
    requires g.Valid() && u < g.Size()
  {
    exists v :: v in dom && g.Edge(u, v)
  }

  /** Every vertex of the subgame `dom` keeps a successor in it. */
  ghost predicate NoDeadEnds(g: Game, dom: set<nat>)
    requires g.Valid() && Within(g, dom)
  {
    forall u {:trigger HasSuccessor(g, dom, u)} :: u in dom ==> HasSuccessor(g, dom, u)
  }

  ghost predicate Shape(g: Game, dom: set<nat>, win: seq<Player>, str: seq<int>) {
    g.Valid() && Within(g, dom) && |win| == |str| == g.Size()
  }

  /** A move of the subgame `dom` in which a vertex owned by its claimed winner follows the strategy. */
  ghost predicate Move(g: Game, dom: set<nat>, win: seq<Player>, str: seq<int>, u: nat, v: nat)
    requires Shape(g, dom, win, str)
  {
    && u in dom && v in dom && g.Edge(u, v)
    && (win[u] == g.owner[u] ==> str[u] == v)
  }

  ghost predicate ClosedWalk(g: Game, dom: set<nat>, win: seq<Player>, str: seq<int>, w: seq<nat>)
    requires Shape(g, dom, win, str)
  {
    && |w| >= 2 && w[0] == w[|w| - 1]
    && (forall k :: 0 <= k < |w| - 1 ==> Move(g, dom, win, str, w[k], w[k + 1]))
  }

  /** The highest priority on `w` has parity `p`. */
  ghost predicate TopParity(g: Game, w: seq<nat>, p: Player) {
    && (forall k :: 0 <= k < |w| ==> w[k] < g.Size())
    && exists k :: 0 <= k < |w| && g.Parity(w[k]) == p
         && forall j :: 0 <= j < |w| ==> g.priority[w[j]] <= g.priority[w[k]]
  }

  /** The closed walk `w` is won by the claimed winner of its first vertex. */
  ghost predicate Won(g: Game, win: seq<Player>, w: seq<nat>) {
    |w| > 0 && w[0] < |win| && TopParity(g, w, win[w[0]])
  }

  lemma WalkInside(g: Game, dom: set<nat>, win: seq<Player>, str: seq<int>, w: seq<nat>)
    requires Shape(g, dom, win, str) && ClosedWalk(g, dom, win, str, w)
    ensures forall k :: 0 <= k < |w| ==> w[k] in dom && w[k] < g.Size()
  {
    forall k | 0 <= k < |w| ensures w[k] in dom && w[k] < g.Size() {
      if k < |w| - 1 {
        assert Move(g, dom, win, str, w[k], w[k + 1]);
      } else {
        assert Move(g, dom, win, str, w[0], w[1]);
      }
    }
  }

  /** Every closed walk that respects the strategies is won by the claimed winner of its first vertex. */
  ghost predicate CyclesWon(g: Game, dom: set<nat>, win: seq<Player>, str: seq<int>)
    requires Shape(g, dom, win, str)
  {
    forall w :: ClosedWalk(g, dom, win, str, w) ==> Won(g, win, w)
  }

  /** The claimed regions are closed: a winner's strategy stays in its region and the loser cannot leave it. */
  ghost predicate RegionsClosed(g: Game, dom: set<nat>, win: seq<Player>, str: seq<int>)
    requires Shape(g, dom, win, str)
  {
    forall u :: u in dom ==>
      if win[u] == g.owner[u] then
        str[u] >= 0 && str[u] in dom && g.Edge(u, str[u]) && win[str[u]] == win[u]
      else
        forall v :: v in dom && g.Edge(u, v) ==> win[v] == win[u]
  }

  lemma MoveKeepsWinner(g: Game, dom: set<nat>, win: seq<Player>, str: seq<int>, u: nat, v: nat)
    requires Shape(g, dom, win, str) && RegionsClosed(g, dom, win, str) && Move(g, dom, win, str, u, v)
    ensures win[v] == win[u]
  {
  }

  /** A correct solution of the subgame `dom`. */
  ghost predicate CorrectSolution(g: Game, dom: set<nat>, win: seq<Player>, str: seq<int>)
    requires Shape(g, dom, win, str)
  {
    RegionsClosed(g, dom, win, str) && CyclesWon(g, dom, win, str)
  }

  /** In closed regions a closed walk has one winner. */
  lemma {:induction false} WalkKeepsWinner(g: Game, dom: set<nat>, win: seq<Player>, str: seq<int>, w: seq<nat>, k: nat)
    requires Shape(g, dom, win, str) && RegionsClosed(g, dom, win, str) && ClosedWalk(g, dom, win, str, w)
    requires k < |w|
    ensures w[k] in dom && w[0] in dom && win[w[k]] == win[w[0]]
  {
    WalkInside(g, dom, win, str, w);
    if k > 0 {
      WalkKeepsWinner(g, dom, win, str, w, k - 1);
      assert Move(g, dom, win, str, w[k - 1], w[k - 1 + 1]);
    }
  }

  /** A position of the greatest index on a walk; the game being sorted, its priority is the highest. */
  lemma {:induction false} HighestPosition(w: seq<nat>) returns (k: nat)
    requires |w| > 0
    ensures k < |w| && forall j :: 0 <= j < |w| ==> w[j] <= w[k]
  {
    if |w| == 1 {
      k := 0;
    } else {
      k := HighestPosition(w[..|w| - 1]);
      if w[k] < w[|w| - 1] { k := |w| - 1; }
    }
  }

  /** In a sorted game a walk is decided at its greatest index. */
  lemma WonAtTop(g: Game, win: seq<Player>, w: seq<nat>, k: nat)
    requires g.Sorted() && k < |w| && w[0] < |win|
    requires forall j :: 0 <= j < |w| ==> w[j] <= w[k] < g.Size()
    requires g.Parity(w[k]) == win[w[0]]
    ensures Won(g, win, w)
  {
    forall j | 0 <= j < |w| ensures g.priority[w[j]] <= g.priority[w[k]] { }
  }

  // ---------------------------------------------------------------------------------------------------------
  // What a correct solution means for infinite plays
  // ---------------------------------------------------------------------------------------------------------

  ghost predicate PlayStep(g: Game, dom: set<nat>, win: seq<Player>, str: seq<int>, play: nat -> nat, k: nat)
    requires Shape(g, dom, win, str)
  {
    Move(g, dom, win, str, play(k), play(k + 1))
  }

  /** An infinite play inside `dom` in which the claimed winners follow their strategies. */
  ghost predicate Play(g: Game, dom: set<nat>, win: seq<Player>, str: seq<int>, play: nat -> nat)
    requires Shape(g, dom, win, str)
  {
    forall k: nat :: PlayStep(g, dom, win, str, play, k)
  }

  ghost predicate OccursFrom(g: Game, play: nat -> nat, k: nat, p: nat)
    requires forall m: nat :: play(m) < g.Size()
  {
    exists m: nat :: k <= m && g.priority[play(m)] == p
  }

  ghost predicate Recurs(g: Game, play: nat -> nat, p: nat)
    requires forall k: nat :: play(k) < g.Size()
  {
    forall k: nat :: OccursFrom(g, play, k, p)
  }

  ghost predicate BoundedFrom(g: Game, play: nat -> nat, k: nat, p: nat)
    requires forall m: nat :: play(m) < g.Size()
  {
    forall m: nat :: k <= m ==> g.priority[play(m)] <= p
  }

  /** `p` is the highest priority that occurs infinitely often: the play is won by its parity. */
  ghost predicate HighestRecurring(g: Game, play: nat -> nat, p: nat)
    requires forall k: nat :: play(k) < g.Size()
  {
    Recurs(g, play, p) && exists k: nat :: BoundedFrom(g, play, k, p)
  }

  lemma PlayInside(g: Game, dom: set<nat>, win: seq<Player>, str: seq<int>, play: nat -> nat)
    requires Shape(g, dom, win, str) && Play(g, dom, win, str, play)
    ensures forall k: nat :: play(k) in dom && play(k) < g.Size()
  {
    forall k: nat ensures play(k) in dom && play(k) < g.Size() {
      assert PlayStep(g, dom, win, str, play, k);
    }
  }

  /** The winner never changes along a play. */
  lemma {:induction false} PlayKeepsWinner(g: Game, dom: set<nat>, win: seq<Player>, str: seq<int>, play: nat -> nat, k: nat)
    requires Shape(g, dom, win, str) && RegionsClosed(g, dom, win, str) && Play(g, dom, win, str, play)
    ensures play(k) in dom && play(0) in dom && win[play(k)] == win[play(0)]
  {
    PlayInside(g, dom, win, str, play);
    if k > 0 {
      PlayKeepsWinner(g, dom, win, str, play, k - 1);
      assert PlayStep(g, dom, win, str, play, k - 1);
    }
  }

  /** Some `count` increasing moments from `from` on at which priority `p` occurs. */
  lemma {:induction false} Visits(g: Game, play: nat -> nat, p: nat, from: nat, count: nat) returns (t: seq<nat>)
    requires forall k: nat :: play(k) < g.Size()
    requires Recurs(g, play, p)
    ensures |t| == count
    ensures forall i :: 0 <= i < count ==> from <= t[i] && g.priority[play(t[i])] == p
    ensures forall i, j :: 0 <= i < j < count ==> t[i] < t[j]
    decreases count
  {
    if count == 0 {
      t := [];
    } else {
      assert OccursFrom(g, play, from, p);
      var m: nat :| from <= m && g.priority[play(m)] == p;
      var rest := Visits(g, play, p, m + 1, count - 1);
      t := [m] + rest;
    }
  }

  /** Pigeonhole: more values than there are numbers below `n` contain a repetition. */
  lemma {:induction false} Repetition(s: seq<nat>, n: nat) returns (i: nat, j: nat)
    requires |s| > n
    requires forall k :: 0 <= k < |s| ==> s[k] < n
    ensures i < j < |s| && s[i] == s[j]
    decreases n
  {
    var last := |s| - 1;
    if k :| 0 <= k < last && s[k] == s[last] {
      i, j := k, last;
    } else {
      assert n > 0 by { assert s[last] < n; }
      // remove the value of the last entry by renaming n - 1 to it
      var r := seq(last, k requires 0 <= k < last => if s[k] == n - 1 then s[last] else s[k]);
      i, j := Repetition(r, n - 1);
    }
  }

  ghost function Segment(play: nat -> nat, a: nat, b: nat): (w: seq<nat>)
    requires a <= b
    ensures |w| == b - a + 1 && forall k :: 0 <= k < |w| ==> w[k] == play(a + k)
  {
    seq(b - a + 1, k requires 0 <= k => play(a + k))
  }

  /** A correct solution wins real, infinite plays: whoever is reported as winner of the start wins the play. */
  lemma SolutionWinsPlays(g: Game, dom: set<nat>, win: seq<Player>, str: seq<int>, play: nat -> nat, p: nat)
    requires Shape(g, dom, win, str) && CorrectSolution(g, dom, win, str)
    requires Play(g, dom, win, str, play)
    requires forall k: nat :: play(k) < g.Size()
    requires HighestRecurring(g, play, p)
    ensures play(0) in dom && p % 2 == win[play(0)]
  {
    var k: nat :| BoundedFrom(g, play, k, p);
    var t := Visits(g, play, p, k, g.Size() + 1);
    var i, j := Repetition(seq(|t|, i requires 0 <= i < |t| => play(t[i])), g.Size());
    LoopWins(g, dom, win, str, play, p, t[i], t[j]);
    PlayKeepsWinner(g, dom, win, str, play, t[i]);
  }

  /** A play that returns to a vertex of its highest recurring priority closes a walk won by that priority. */
  lemma LoopWins(g: Game, dom: set<nat>, win: seq<Player>, str: seq<int>, play: nat -> nat, p: nat, a: nat, b: nat)
    requires Shape(g, dom, win, str) && CyclesWon(g, dom, win, str)
    requires Play(g, dom, win, str, play)
    requires forall k: nat :: play(k) < g.Size()
    requires a < b && play(a) == play(b) && g.priority[play(a)] == p && BoundedFrom(g, play, a, p)
    ensures play(a) in dom && p % 2 == win[play(a)]
  {
    var w := Segment(play, a, b);
    forall m | 0 <= m < |w| - 1 ensures Move(g, dom, win, str, w[m], w[m + 1]) {
      assert PlayStep(g, dom, win, str, play, a + m);
    }
    assert ClosedWalk(g, dom, win, str, w);
    WalkInside(g, dom, win, str, w);
    assert Won(g, win, w);
    var top :| 0 <= top < |w| && g.Parity(w[top]) == win[w[0]]
      && forall j :: 0 <= j < |w| ==> g.priority[w[j]] <= g.priority[w[top]];
    assert g.priority[w[0]] <= g.priority[w[top]] <= p;
  }

  /** Every play has a highest recurring priority. */
  lemma LimitExists(g: Game, play: nat -> nat) returns (p: nat)
    requires forall k: nat :: play(k) < g.Size()
    ensures HighestRecurring(g, play, p)
  {
    var top := 0;
    var i := 0;
    while i < g.Size()
      invariant i <= g.Size()
      invariant forall v :: 0 <= v < i ==> g.priority[v] <= top
    {
      if g.priority[i] > top { top := g.priority[i]; }
      i := i + 1;
    }
    assert BoundedFrom(g, play, 0, top);
    p := LimitBelow(g, play, top, 0);
  }

  lemma {:induction false} LimitBelow(g: Game, play: nat -> nat, top: nat, k: nat) returns (p: nat)
    requires forall m: nat :: play(m) < g.Size()
    requires BoundedFrom(g, play, k, top)
    ensures HighestRecurring(g, play, p)
    decreases top
  {
    if Recurs(g, play, top) {
      p := top;
    } else {
      var k': nat :| !OccursFrom(g, play, k', top);
      var j := if k < k' then k' else k;
      assert g.priority[play(j)] < top;
      assert BoundedFrom(g, play, j, top - 1);
      p := LimitBelow(g, play, top - 1, j);
    }
  }

  // ---------------------------------------------------------------------------------------------------------
  // Correct solutions agree on the winners
  // ---------------------------------------------------------------------------------------------------------

  /** The move chosen when both claimed winners of a disputed vertex follow their own strategy. */
  ghost function Duel(g: Game, dom: set<nat>, win: seq<Player>, str: seq<int>, str': seq<int>, u: nat): int
    requires Shape(g, dom, win, str) && |str'| == g.Size() && u < g.Size()
  {
    if win[u] == g.owner[u] then str[u] else str'[u]
  }

  lemma {:induction false} DuelRun(g: Game, dom: set<nat>, win: seq<Player>, str: seq<int>, win': seq<Player>, str': seq<int>,
                v: nat, len: nat) returns (w: seq<nat>)
    requires Shape(g, dom, win, str) && Shape(g, dom, win', str')
    requires RegionsClosed(g, dom, win, str) && RegionsClosed(g, dom, win', str')
    requires v in dom && win[v] != win'[v]
    ensures |w| == len + 1 && w[0] == v
    ensures forall k :: 0 <= k < |w| ==> w[k] in dom && win[w[k]] == win[v] && win'[w[k]] == win'[v]
    ensures forall k :: 0 <= k < len ==> Move(g, dom, win, str, w[k], w[k + 1]) && Move(g, dom, win', str', w[k], w[k + 1])
    decreases len
  {
    if len == 0 {
      w := [v];
    } else {
      var next := Duel(g, dom, win, str, str', v);
      assert Move(g, dom, win, str, v, next) && Move(g, dom, win', str', v, next);
      var rest := DuelRun(g, dom, win, str, win', str', next, len - 1);
      w := [v] + rest;
      forall k | 0 <= k < len ensures Move(g, dom, win, str, w[k], w[k + 1]) && Move(g, dom, win', str', w[k], w[k + 1]) {
        if k > 0 { assert w[k] == rest[k - 1] && w[k + 1] == rest[k]; }
      }
    }
  }

  lemma TopParityUnique(g: Game, w: seq<nat>, p: Player, q: Player)
    requires TopParity(g, w, p) && TopParity(g, w, q)
    ensures p == q
  {
    var k :| 0 <= k < |w| && g.Parity(w[k]) == p && forall j :: 0 <= j < |w| ==> g.priority[w[j]] <= g.priority[w[k]];
    var l :| 0 <= l < |w| && g.Parity(w[l]) == q && forall j :: 0 <= j < |w| ==> g.priority[w[j]] <= g.priority[w[l]];
    assert g.priority[w[k]] == g.priority[w[l]];
  }

  /** Two correct solutions of the same subgame report the same winner everywhere. */
  lemma WinnersUnique(g: Game, dom: set<nat>, win: seq<Player>, str: seq<int>, win': seq<Player>, str': seq<int>)
    requires Shape(g, dom, win, str) && Shape(g, dom, win', str')
    requires CorrectSolution(g, dom, win, str) && CorrectSolution(g, dom, win', str')
    ensures forall v :: v in dom ==> win[v] == win'[v]
  {
    forall v | v in dom ensures win[v] == win'[v] {
      if win[v] != win'[v] {
        var w := DuelRun(g, dom, win, str, win', str', v, g.Size());
        var i, j := Repetition(w, g.Size());
        var c := w[i..j + 1];
        assert ClosedWalk(g, dom, win, str, c) && ClosedWalk(g, dom, win', str', c);
        assert Won(g, win, c) && Won(g, win', c);
        TopParityUnique(g, c, win[c[0]], win'[c[0]]);
      }
    }
  }
}
