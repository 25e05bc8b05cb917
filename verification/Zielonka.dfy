/** Attractors, dominions and the two arguments behind the recursive algorithm: what the opponent's attractors remove is
    won by the opponent, and what is left once they add nothing is won by the player of the highest priority. */
module Zielonka {
  import opened ParityGames
  import opened Solutions

  ghost function AllWon(g: Game, q: Player): (win: seq<Player>)
    ensures |win| == g.Size() && forall v :: 0 <= v < |win| ==> win[v] == q
  {
    seq(g.Size(), _ => q)
  }

  ghost function WinOf(g: Game, p: Player, r: set<nat>): (win: seq<Player>)
    ensures |win| == g.Size() && forall v :: 0 <= v < |win| ==> win[v] == if v in r then p else 1 - p
  {
    seq(g.Size(), v requires 0 <= v => if v in r then p else 1 - p)
  }

  function Elements(a: seq<nat>): set<nat> {
    set v | v in a
  }

  ghost predicate Frame(g: Game, c: set<nat>, str: seq<int>) {
    g.Valid() && g.Sorted() && Within(g, c) && |str| == g.Size()
  }

  // ---------------------------------------------------------------------------------------------------------
  // Attractors
  // ---------------------------------------------------------------------------------------------------------

  /** The player can force the k-th vertex of `a` to an earlier one. */
  ghost predicate Forced(g: Game, c: set<nat>, player: int, a: seq<nat>, k: nat, str: seq<int>)
    requires Frame(g, c, str) && k < |a| && a[k] < g.Size()
  {
    if g.owner[a[k]] == player then
      str[a[k]] >= 0 && str[a[k]] in a[..k] && g.Edge(a[k], str[a[k]])
    else
      forall v :: v in c && g.Edge(a[k], v) ==> v in a[..k]
  }

  ghost predicate Attracted(g: Game, c: set<nat>, player: int, base: nat, a: seq<nat>, str: seq<int>)
    requires Frame(g, c, str)
  {
    && base <= |a|
    && (forall k :: 0 <= k < |a| ==> a[k] in c)
    && (forall j, k :: 0 <= j < k < |a| ==> a[j] != a[k])
    && (forall k :: base <= k < |a| ==> Forced(g, c, player, a, k, str))
  }

  /** Vertex `u` is not attracted to `a`: its owner cannot, or need not, move there. */
  ghost predicate Escapes(g: Game, c: set<nat>, player: int, a: set<nat>, u: nat)
    requires g.Valid() && u < g.Size()
  {
    if g.owner[u] == player
    then forall v :: v in a ==> !g.Edge(u, v)
    else HasSuccessor(g, c - a, u)
  }

  /** Nothing more can be attracted: the rest of `c` is a trap for the player. */
  ghost predicate Saturated(g: Game, c: set<nat>, player: int, a: set<nat>)
    requires g.Valid() && Within(g, c)
  {
    forall u {:trigger Escapes(g, c, player, a, u)} :: u in c && u !in a ==> Escapes(g, c, player, a, u)
  }

  lemma SaturatedRest(g: Game, c: set<nat>, player: int, a: set<nat>)
    requires g.Valid() && Within(g, c) && NoDeadEnds(g, c) && Saturated(g, c, player, a)
    ensures Within(g, c - a) && NoDeadEnds(g, c - a)
  {
    forall u | u in c - a ensures HasSuccessor(g, c - a, u) {
      assert Escapes(g, c, player, a, u) && HasSuccessor(g, c, u);
      if g.owner[u] == player {
        var v :| v in c && g.Edge(u, v);
        assert v in c - a;
      }
    }
  }

  /** From an attracted vertex a walk that respects the strategies goes to an earlier one. */
  lemma GoesEarlier(g: Game, c: set<nat>, dom: set<nat>, q: Player, base: nat, a: seq<nat>, str: seq<int>, w: seq<nat>, j: nat, m: nat)
    requires Frame(g, c, str) && Attracted(g, c, q, base, a, str) && dom <= c
    requires Shape(g, dom, AllWon(g, q), str) && ClosedWalk(g, dom, AllWon(g, q), str, w)
    requires base <= m < |a| && j < |w| && w[j] == a[m]
    ensures exists i :: 0 <= i < |w| && w[i] in a[..m]
  {
    var i := if j == |w| - 1 then 0 else j;
    assert Forced(g, c, q, a, m, str);
    assert Move(g, dom, AllWon(g, q), str, w[i], w[i + 1]);
    assert w[i + 1] in a[..m];
  }

  lemma {:induction false} AvoidsAll(g: Game, c: set<nat>, dom: set<nat>, q: Player, base: nat, a: seq<nat>, str: seq<int>, w: seq<nat>, m: nat)
    requires Frame(g, c, str) && Attracted(g, c, q, base, a, str) && dom <= c
    requires Shape(g, dom, AllWon(g, q), str) && ClosedWalk(g, dom, AllWon(g, q), str, w)
    requires base <= m <= |a| && forall j :: 0 <= j < |w| ==> w[j] !in a[..m]
    ensures forall j :: 0 <= j < |w| ==> w[j] !in a
    decreases |a| - m
  {
    if m < |a| {
      forall j | 0 <= j < |w| ensures w[j] != a[m] {
        if w[j] == a[m] { GoesEarlier(g, c, dom, q, base, a, str, w, j, m); }
      }
      assert a[..m + 1] == a[..m] + [a[m]];
      AvoidsAll(g, c, dom, q, base, a, str, w, m + 1);
    } else {
      assert a[..m] == a;
    }
  }

  /** A closed walk that meets an attractor, and respects its strategies, meets its base. */
  lemma MeetsBase(g: Game, c: set<nat>, dom: set<nat>, q: Player, base: nat, a: seq<nat>, str: seq<int>, w: seq<nat>, i: nat)
    requires Frame(g, c, str) && Attracted(g, c, q, base, a, str) && dom <= c
    requires Shape(g, dom, AllWon(g, q), str) && ClosedWalk(g, dom, AllWon(g, q), str, w)
    requires i < |w| && w[i] in a
    ensures exists j :: 0 <= j < |w| && w[j] in a[..base]
  {
    if forall j :: 0 <= j < |w| ==> w[j] !in a[..base] {
      AvoidsAll(g, c, dom, q, base, a, str, w, base);
    }
  }

  // ---------------------------------------------------------------------------------------------------------
  // Dominions
  // ---------------------------------------------------------------------------------------------------------

  /** Within `c` the player `q` wins from everywhere in `b` without leaving it. */
  ghost predicate Dominion(g: Game, c: set<nat>, b: set<nat>, q: Player, str: seq<int>)
    requires Frame(g, c, str)
  {
    && b <= c
    && (forall u :: u in b ==>
          if g.owner[u] == q
          then str[u] >= 0 && str[u] in b && g.Edge(u, str[u])
          else forall v :: v in c && g.Edge(u, v) ==> v in b)
    && CyclesWon(g, b, AllWon(g, q), str)
  }

  lemma DominionMove(g: Game, c: set<nat>, b: set<nat>, d: set<nat>, q: Player, str: seq<int>, u: nat, v: nat)
    requires Frame(g, c, str) && Dominion(g, c, b, q, str) && d <= c && u in b
    requires Shape(g, d, AllWon(g, q), str) && Move(g, d, AllWon(g, q), str, u, v)
    ensures v in b
  {
  }

  /** Attracting to a dominion gives a dominion. */
  lemma AttractDominion(g: Game, c: set<nat>, q: Player, base: nat, a: seq<nat>, str: seq<int>)
    requires Frame(g, c, str) && Attracted(g, c, q, base, a, str)
    requires Dominion(g, c, Elements(a[..base]), q, str)
    ensures Dominion(g, c, Elements(a), q, str)
  {
    var b, l := Elements(a), Elements(a[..base]);
    forall u | u in b
      ensures if g.owner[u] == q
        then str[u] >= 0 && str[u] in b && g.Edge(u, str[u])
        else forall v :: v in c && g.Edge(u, v) ==> v in b
    {
      var k :| 0 <= k < |a| && a[k] == u;
      if k < base { assert u == a[..base][k] && u in l; } else { assert Forced(g, c, q, a, k, str); }
    }
    forall w | ClosedWalk(g, b, AllWon(g, q), str, w) ensures Won(g, AllWon(g, q), w) {
      WalkInside(g, b, AllWon(g, q), str, w);
      MeetsBase(g, c, b, q, base, a, str, w, 0);
      forall u, v | Move(g, b, AllWon(g, q), str, u, v) && u in l ensures v in l { DominionMove(g, c, l, b, q, str, u, v); }
      ClosedWalkStays(g, b, AllWon(g, q), str, l, w);
      WalkRestricts(g, b, AllWon(g, q), str, l, AllWon(g, q), str, w);
    }
  }

  /** A dominion of what a dominion leaves over adds to it. */
  lemma DominionUnion(g: Game, c: set<nat>, d: set<nat>, b: set<nat>, q: Player, str: seq<int>)
    requires Frame(g, c, str) && Dominion(g, c, d, q, str) && Dominion(g, c - d, b, q, str)
    ensures Dominion(g, c, d + b, q, str)
  {
    forall w | ClosedWalk(g, d + b, AllWon(g, q), str, w) ensures Won(g, AllWon(g, q), w) {
      WalkInside(g, d + b, AllWon(g, q), str, w);
      forall u, v | Move(g, d + b, AllWon(g, q), str, u, v) && u in d ensures v in d {
        DominionMove(g, c, d, d + b, q, str, u, v);
      }
      ClosedWalkStays(g, d + b, AllWon(g, q), str, d, w);
      if w[0] in d {
        WalkRestricts(g, d + b, AllWon(g, q), str, d, AllWon(g, q), str, w);
      } else {
        WalkRestricts(g, d + b, AllWon(g, q), str, b, AllWon(g, q), str, w);
      }
    }
  }

  /** The part of a solved subgame that one player wins is a dominion of that player. */
  lemma SolutionDominion(g: Game, c: set<nat>, win: seq<Player>, str: seq<int>, q: Player, b: set<nat>)
    requires Frame(g, c, str) && Shape(g, c, win, str) && CorrectSolution(g, c, win, str)
    requires forall v :: v in b <==> v in c && win[v] == q
    ensures Dominion(g, c, b, q, str)
  {
    forall w | ClosedWalk(g, b, AllWon(g, q), str, w) ensures Won(g, AllWon(g, q), w) {
      WalkInside(g, b, AllWon(g, q), str, w);
      WalkRestricts(g, b, AllWon(g, q), str, c, win, str, w);
      assert Won(g, win, w);
    }
  }

  /** A dominion that the opponent cannot leave for what has been taken out is a dominion of the larger game. */
  lemma DominionEnlarges(g: Game, c: set<nat>, c': set<nat>, b: set<nat>, q: Player, str: seq<int>)
    requires Frame(g, c, str) && Within(g, c') && c' <= c && Dominion(g, c', b, q, str)
    requires forall u, v :: u in b && g.owner[u] != q && v in c && v !in c' ==> !g.Edge(u, v)
    ensures Dominion(g, c, b, q, str)
  {
  }

  // ---------------------------------------------------------------------------------------------------------
  // The remaining game
  // ---------------------------------------------------------------------------------------------------------

  /** Apart from the strategies of the vertices of the highest priority (the base of `a`), player `p` has all it needs to
      win `r`: everything else is attracted to them or won without them. */
  ghost predicate Kernel(g: Game, r: set<nat>, top: nat, p: Player, base: nat, a: seq<nat>, str: seq<int>)
    requires Frame(g, r, str)
  {
    && Attracted(g, r, p, base, a, str)
    && (forall v :: v in r ==> g.priority[v] <= top)
    && (forall v :: v in a[..base] <==> v in r && g.priority[v] == top)
    && Dominion(g, r - Elements(a), r - Elements(a), p, str)
  }

  /** With moves inside `r` for the vertices of the highest priority, all of `r` is won by their player. */
  lemma KernelWins(g: Game, r: set<nat>, top: nat, p: Player, base: nat, a: seq<nat>, str: seq<int>)
    requires Frame(g, r, str) && Kernel(g, r, top, p, base, a, str) && top % 2 == p
    requires forall u :: u in r && g.priority[u] == top && g.owner[u] == p ==>
      str[u] >= 0 && str[u] in r && g.Edge(u, str[u])
    ensures Dominion(g, r, r, p, str)
  {
    var rest := r - Elements(a);
    forall u | u in r && g.owner[u] == p ensures str[u] >= 0 && str[u] in r && g.Edge(u, str[u]) {
      if k :| 0 <= k < |a| && a[k] == u {
        if k < base { assert u in a[..base]; } else { assert Forced(g, r, p, a, k, str); }
      } else {
        assert u in rest;
      }
    }
    forall w | ClosedWalk(g, r, AllWon(g, p), str, w) ensures Won(g, AllWon(g, p), w) {
      WalkInside(g, r, AllWon(g, p), str, w);
      if i :| 0 <= i < |w| && w[i] in a {
        MeetsBase(g, r, r, p, base, a, str, w, i);
        var j :| 0 <= j < |w| && w[j] in a[..base];
        assert g.priority[w[j]] == top;
      } else {
        WalkRestricts(g, r, AllWon(g, p), str, rest, AllWon(g, p), str, w);
      }
    }
  }

  /** The two dominions make up a correct solution. */
  lemma TwoDominions(g: Game, c: set<nat>, r: set<nat>, p: Player, str: seq<int>)
    requires Frame(g, c, str) && r <= c && Dominion(g, c, c - r, 1 - p, str) && Dominion(g, r, r, p, str)
    requires forall u, v :: u in r && g.owner[u] != p && v in c && g.Edge(u, v) ==> v in r
    ensures CorrectSolution(g, c, WinOf(g, p, r), str)
  {
    var win := WinOf(g, p, r);
    assert RegionsClosed(g, c, win, str);
    forall w | ClosedWalk(g, c, win, str, w) ensures Won(g, win, w) {
      WalkInside(g, c, win, str, w);
      ClosedWalkStays(g, c, win, str, r, w);
      if w[0] in r {
        WalkRestricts(g, c, win, str, r, AllWon(g, p), str, w);
        assert Won(g, AllWon(g, p), w);
      } else {
        WalkRestricts(g, c, win, str, c - r, AllWon(g, 1 - p), str, w);
        assert Won(g, AllWon(g, 1 - p), w);
      }
    }
  }

  // ---------------------------------------------------------------------------------------------------------
  // One step of the recursion
  // ---------------------------------------------------------------------------------------------------------

  /** A dominion only depends on the strategies of its player inside it. */
  lemma DominionStable(g: Game, c: set<nat>, b: set<nat>, q: Player, str: seq<int>, str': seq<int>)
    requires Frame(g, c, str) && |str'| == g.Size() && Dominion(g, c, b, q, str)
    requires forall v :: v in b && g.owner[v] == q ==> str'[v] == str[v]
    ensures Dominion(g, c, b, q, str')
  {
    forall w | ClosedWalk(g, b, AllWon(g, q), str', w) ensures Won(g, AllWon(g, q), w) {
      WalkInside(g, b, AllWon(g, q), str', w);
      WalkRestricts(g, b, AllWon(g, q), str', b, AllWon(g, q), str, w);
    }
  }

  lemma AttractedStable(g: Game, c: set<nat>, player: int, base: nat, a: seq<nat>, str: seq<int>, str': seq<int>)
    requires Frame(g, c, str) && |str'| == g.Size() && Attracted(g, c, player, base, a, str)
    requires forall v :: v in a && g.owner[v] == player ==> str'[v] == str[v]
    ensures Attracted(g, c, player, base, a, str')
  {
    forall k | base <= k < |a| ensures Forced(g, c, player, a, k, str') {
      assert Forced(g, c, player, a, k, str) && a[k] in a;
    }
  }

  lemma SaturatedEmpty(g: Game, c: set<nat>, player: int)
    requires g.Valid() && Within(g, c) && NoDeadEnds(g, c)
    ensures Saturated(g, c, player, {})
  {
    forall u | u in c ensures Escapes(g, c, player, {}, u) {
      assert HasSuccessor(g, c, u) && c - {} == c;
    }
  }

  /** Nothing is attracted to nothing. */
  lemma NothingAttracted(g: Game, c: set<nat>, player: int, a: seq<nat>, str: seq<int>)
    requires Frame(g, c, str) && NoDeadEnds(g, c) && Attracted(g, c, player, 0, a, str)
    ensures a == []
  {
    assert a == [] || (Forced(g, c, player, a, 0, str) && HasSuccessor(g, c, a[0]));
  }

  lemma SaturatedUnion(g: Game, c: set<nat>, player: int, d: set<nat>, b: set<nat>)
    requires g.Valid() && Within(g, c) && Saturated(g, c, player, d) && Saturated(g, c - d, player, b)
    ensures Saturated(g, c, player, d + b)
  {
    assert c - (d + b) == c - d - b;
    forall u | u in c && u !in d + b ensures Escapes(g, c, player, d + b, u) {
      assert Escapes(g, c, player, d, u) && Escapes(g, c - d, player, b, u);
    }
  }

  /** What the opponent wins once the attractor of the highest priority has been taken out, it wins before. */
  lemma LostBelow(g: Game, c: set<nat>, p: Player, a: set<nat>, lose: set<nat>, str: seq<int>)
    requires Frame(g, c, str) && a <= c && Saturated(g, c, p, a) && lose <= c - a
    requires CorrectSolution(g, c - a, WinOf(g, 1 - p, lose), str)
    ensures Dominion(g, c, lose, 1 - p, str)
  {
    SolutionDominion(g, c - a, WinOf(g, 1 - p, lose), str, 1 - p, lose);
    hide Dominion;
    forall u, v | u in lose && g.owner[u] != 1 - p && v in c && v !in c - a ensures !g.Edge(u, v) {
      assert Escapes(g, c, p, a, u);
    }
    DominionEnlarges(g, c, c - a, lose, 1 - p, str);
  }

  ghost predicate KernelLeft(g: Game, r: set<nat>, top: nat, p: Player, str: seq<int>)
    requires Frame(g, r, str)
  {
    exists base, a :: Kernel(g, r, top, p, base, a, str)
  }

  /** The early stop: when the opponent's attractor adds nothing to what it wins below, what is left is a kernel. */
  lemma NothingAdded(g: Game, c: set<nat>, top: nat, p: Player, base: nat, a: seq<nat>, lose: set<nat>, str: seq<int>)
    requires Frame(g, c, str) && Attracted(g, c, p, base, a, str) && lose <= c - Elements(a)
    requires forall v :: v in c ==> g.priority[v] <= top
    requires forall v :: v in a[..base] <==> v in c && g.priority[v] == top
    requires CorrectSolution(g, c - Elements(a), WinOf(g, 1 - p, lose), str)
    ensures Frame(g, c - lose, str) && KernelLeft(g, c - lose, top, p, str)
  {
    var r, below := c - lose, c - Elements(a);
    var b := below - lose;
    SolutionDominion(g, below, WinOf(g, 1 - p, lose), str, p, b);
    assert r - Elements(a) == b;
    assert Dominion(g, b, b, p, str);
    hide Dominion, CorrectSolution;
    forall k | 0 <= k < |a| ensures a[k] in r { assert a[k] in Elements(a); }
    forall k | base <= k < |a| ensures Forced(g, r, p, a, k, str) {
      assert Forced(g, c, p, a, k, str);
    }
    forall v | v in a[..base] ensures v in r { assert v in Elements(a); }
    assert Kernel(g, r, top, p, base, a, str);
  }

  lemma EmptyDominion(g: Game, c: set<nat>, p: Player, str: seq<int>)
    requires Frame(g, c, str)
    ensures Dominion(g, c, {}, p, str)
  {
    forall w ensures !ClosedWalk(g, {}, AllWon(g, p), str, w) {
      assert |w| >= 2 ==> !Move(g, {}, AllWon(g, p), str, w[0], w[0 + 1]);
    }
  }

  lemma EmptyKernel(g: Game, top: nat, p: Player, str: seq<int>)
    requires Frame(g, {}, str)
    ensures KernelLeft(g, {}, top, p, str)
  {
    EmptyDominion(g, {}, p, str);
    hide Dominion;
    assert {} - Elements([]) == {};
    assert Kernel(g, {}, top, p, 0, [], str);
  }

  /** The whole game is solved once moves have been chosen for the vertices of the highest priority that are left. */
  lemma KernelSolves(g: Game, c: set<nat>, r: set<nat>, top: nat, p: Player, str: seq<int>)
    requires Frame(g, c, str) && Frame(g, r, str) && r <= c && top % 2 == p
    requires KernelLeft(g, r, top, p, str)
    requires Dominion(g, c, c - r, 1 - p, str) && Saturated(g, c, 1 - p, c - r)
    requires forall u :: u in r && g.priority[u] == top && g.owner[u] == p ==> str[u] >= 0 && str[u] in r && g.Edge(u, str[u])
    ensures CorrectSolution(g, c, WinOf(g, p, r), str)
  {
    var base, a :| Kernel(g, r, top, p, base, a, str);
    KernelWins(g, r, top, p, base, a, str);
    hide Kernel, Dominion;
    forall u, v | u in r && g.owner[u] != p && v in c && g.Edge(u, v) ensures v in r {
      assert Escapes(g, c, 1 - p, c - r, u);
    }
    TwoDominions(g, c, r, p, str);
  }

  /** A kernel does not depend on the strategies of its vertices of the highest priority. */
  lemma KernelStable(g: Game, r: set<nat>, top: nat, p: Player, str: seq<int>, str': seq<int>)
    requires Frame(g, r, str) && |str'| == g.Size() && KernelLeft(g, r, top, p, str)
    requires forall v :: v in r && g.priority[v] != top ==> str'[v] == str[v]
    ensures KernelLeft(g, r, top, p, str')
  {
    var base: nat, a: seq<nat> :| Kernel(g, r, top, p, base, a, str);
    assert Attracted(g, r, p, base, a, str);
    forall k | base <= k < |a| ensures Forced(g, r, p, a, k, str') {
      assert Forced(g, r, p, a, k, str);
      assert a[k] !in a[..base];
    }
    forall v | v in r - Elements(a) ensures str'[v] == str[v] {
      assert v !in a[..base];
    }
    DominionStable(g, r - Elements(a), r - Elements(a), p, str, str');
    assert Kernel(g, r, top, p, base, a, str');
  }

  /** A whole step: the attractor `won` of what the opponent wins below is a dominion of the opponent, and if it adds
      nothing, what is left is a kernel. */
  lemma StepResult(g: Game, c: set<nat>, top: nat, p: Player, base: nat, a: seq<nat>, str: seq<int>,
                   lose: seq<nat>, won: seq<nat>, str': seq<int>)
    requires Frame(g, c, str) && |str'| == g.Size() && Elements(lose) <= c - Elements(a)
    requires Attracted(g, c, p, base, a, str) && Saturated(g, c, p, Elements(a))
    requires forall v :: v in c ==> g.priority[v] <= top
    requires forall v :: v in a[..base] <==> v in c && g.priority[v] == top
    requires CorrectSolution(g, c - Elements(a), WinOf(g, 1 - p, Elements(lose)), str)
    requires Attracted(g, c, 1 - p, |lose|, won, str') && lose <= won
    requires forall v :: 0 <= v < g.Size() && str'[v] != str[v] ==> v in won && v !in lose
    ensures Elements(won) <= c && Dominion(g, c, Elements(won), 1 - p, str')
    ensures |won| == |lose| ==> KernelLeft(g, c - Elements(won), top, p, str')
  {
    hide Dominion, CorrectSolution, Attracted, Saturated;
    assert forall k :: 0 <= k < |won| ==> won[k] in c by { AttractedInside(g, c, 1 - p, |lose|, won, str'); }
    assert forall k :: 0 <= k < |a| ==> a[k] in c by { AttractedInside(g, c, p, base, a, str); }
    LostBelow(g, c, p, Elements(a), Elements(lose), str);
    DominionStable(g, c, Elements(lose), 1 - p, str, str');
    assert won[..|lose|] == lose;
    AttractDominion(g, c, 1 - p, |lose|, won, str');
    if |won| == |lose| {
      assert won == lose;
      assert str' == str;
      NothingAdded(g, c, top, p, base, a, Elements(lose), str);
    }
  }

  lemma AttractedInside(g: Game, c: set<nat>, player: int, base: nat, a: seq<nat>, str: seq<int>)
    requires Frame(g, c, str) && Attracted(g, c, player, base, a, str)
    ensures forall k :: 0 <= k < |a| ==> a[k] in c
  {
  }

  // ---------------------------------------------------------------------------------------------------------
  // Reporting
  // ---------------------------------------------------------------------------------------------------------

  /** The strategies that are reported: those of the winners. */
  ghost function Reported(g: Game, win: seq<Player>, str: seq<int>): (r: seq<int>)
    requires g.Valid() && |win| == |str| == g.Size()
    ensures |r| == g.Size() && forall v :: 0 <= v < |r| ==> r[v] == if win[v] == g.owner[v] then str[v] else -1
  {
    seq(g.Size(), v requires 0 <= v < g.Size() => if win[v] == g.owner[v] then str[v] else -1)
  }

  /** Only the strategies of the winners matter. */
  lemma ReportedSolution(g: Game, dom: set<nat>, win: seq<Player>, str: seq<int>)
    requires Shape(g, dom, win, str) && CorrectSolution(g, dom, win, str)
    ensures CorrectSolution(g, dom, win, Reported(g, win, str))
  {
    var r := Reported(g, win, str);
    assert RegionsClosed(g, dom, win, r);
    forall w | ClosedWalk(g, dom, win, r, w) ensures Won(g, win, w) {
      WalkInside(g, dom, win, r, w);
      WalkRestricts(g, dom, win, r, dom, win, str, w);
    }
  }

  /** A dominion of the unsolved part adds to a solved part that is closed under attraction. */
  lemma AddDominion(g: Game, s: set<nat>, win: seq<Player>, str: seq<int>, r: set<nat>, q: Player, str': seq<int>)
    requires PartialSolution(g, s, win, str) && AttractorClosed(g, s, win) && Within(g, r) && s !! r && |str'| == g.Size()
    requires forall u :: u in r && g.owner[u] == q ==> str'[u] >= 0 && str'[u] in r && g.Edge(u, str'[u])
    requires forall u, v :: u in r && g.owner[u] != q && g.Edge(u, v) ==> v in s || v in r
    requires CyclesWon(g, r, AllWon(g, q), str')
    ensures PartialSolution(g, s + r, Merge(r, AllWon(g, q), win), Merge(r, Reported(g, AllWon(g, q), str'), str))
  {
    var t, w', t' := s + r, Merge(r, AllWon(g, q), win), Merge(r, Reported(g, AllWon(g, q), str'), str);
    forall u, v | u in r && v in s && g.Edge(u, v) && g.owner[u] != q ensures win[v] == q { }
    assert RegionsClosed(g, t, w', t');
    forall w | ClosedWalk(g, t, w', t', w) ensures Won(g, w', w) {
      WalkInside(g, t, w', t', w);
      ClosedWalkStays(g, t, w', t', s, w);
      if w[0] in s {
        WalkRestricts(g, t, w', t', s, win, str, w);
        assert Won(g, win, w);
      } else {
        forall k | 0 <= k < |w| - 1 ensures Move(g, r, AllWon(g, q), str', w[k], w[k + 1]) {
          assert Move(g, t, w', t', w[k], w[k + 1]);
        }
        assert ClosedWalk(g, r, AllWon(g, q), str', w);
        assert Won(g, AllWon(g, q), w);
      }
    }
  }
}
