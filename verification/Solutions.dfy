/** Partial solutions: unions of won dominions, how they grow by attraction, and how they combine with a solution of
    the rest of the game. */
module Solutions {
  import opened ParityGames

  function Vertices(g: Game): set<nat> {
    set v: nat | v < g.Size() && g.priority[v] >= 0
  }

  lemma {:induction false} SubsetSize(a: set<nat>, b: set<nat>)
    requires a <= b
    ensures |a| <= |b|
  {
    if x :| x in a { SubsetSize(a - {x}, b - {x}); }
  }

  /** The solved part `s` is a union of dominions of the reported winners: a correct solution that no loser can leave. */
  ghost predicate PartialSolution(g: Game, s: set<nat>, win: seq<Player>, str: seq<int>) {
    && Shape(g, s, win, str)
    && CorrectSolution(g, s, win, str)
    && forall u, v :: u in s && win[u] != g.owner[u] && g.Edge(u, v) ==> v in s
  }

  /** No vertex outside `s` is attracted to the part `p` of it that is won by its owner. */
  ghost predicate Repelled(g: Game, s: set<nat>, p: set<nat>, win: seq<Player>)
    requires g.Valid() && Within(g, p) && |win| == g.Size()
  {
    forall u, v :: 0 <= u < g.Size() && u !in s && v in p && g.Edge(u, v) ==> win[v] != g.owner[u]
  }

  /** `s` is closed under both attractors. */
  ghost predicate AttractorClosed(g: Game, s: set<nat>, win: seq<Player>)
    requires g.Valid() && Within(g, s) && |win| == g.Size()
  {
    && Repelled(g, s, s, win)
    && forall u :: 0 <= u < g.Size() && u !in s ==> exists v :: v !in s && g.Edge(u, v)
  }

  /** Step `k` of the walk does not leave `s`. */
  ghost predicate Stays(s: set<nat>, w: seq<nat>, k: nat)
    requires k + 1 < |w|
  {
    w[k] in s ==> w[k + 1] in s
  }

  /** A closed walk no step of which leaves `s` lies inside or outside `s`. */
  lemma WalkStays(s: set<nat>, w: seq<nat>)
    requires |w| >= 2 && w[0] == w[|w| - 1]
    requires forall k :: 0 <= k < |w| - 1 ==> Stays(s, w, k)
    ensures (forall k :: 0 <= k < |w| ==> w[k] in s) || (forall k :: 0 <= k < |w| ==> w[k] !in s)
  {
    if k :| 0 <= k < |w| && w[k] in s {
      WalkStaysFrom(s, w, k, |w| - 1);
      assert w[0] in s;
      forall j | 0 <= j < |w| ensures w[j] in s {
        WalkStaysFrom(s, w, 0, j);
      }
    }
  }

  lemma {:induction false} WalkStaysFrom(s: set<nat>, w: seq<nat>, j: nat, k: nat)
    requires forall m :: 0 <= m < |w| - 1 ==> Stays(s, w, m)
    requires j <= k < |w| && w[j] in s
    ensures w[k] in s
    decreases k - j
  {
    if j < k {
      assert Stays(s, w, j);
      WalkStaysFrom(s, w, j + 1, k);
    }
  }

  /** As `WalkStays`, for a set that no move leaves. */
  lemma ClosedWalkStays(g: Game, dom: set<nat>, win: seq<Player>, str: seq<int>, s: set<nat>, w: seq<nat>)
    requires Shape(g, dom, win, str) && ClosedWalk(g, dom, win, str, w)
    requires forall u, v :: Move(g, dom, win, str, u, v) && u in s ==> v in s
    ensures (forall k :: 0 <= k < |w| ==> w[k] in s) || (forall k :: 0 <= k < |w| ==> w[k] !in s)
  {
    forall k | 0 <= k < |w| - 1 ensures Stays(s, w, k) {
      assert Move(g, dom, win, str, w[k], w[k + 1]);
    }
    WalkStays(s, w);
  }

  /** A closed walk that stays in a smaller set is a closed walk there, for any strategies that agree on it. */
  lemma WalkRestricts(g: Game, dom: set<nat>, win: seq<Player>, str: seq<int>, dom': set<nat>, win': seq<Player>, str': seq<int>, w: seq<nat>)
    requires Shape(g, dom, win, str) && Shape(g, dom', win', str')
    requires ClosedWalk(g, dom, win, str, w)
    requires forall k :: 0 <= k < |w| ==> w[k] in dom' && win[w[k]] == win'[w[k]]
    requires forall v :: v in dom' && win'[v] == g.owner[v] ==> str'[v] == str[v]
    ensures ClosedWalk(g, dom', win', str', w)
    ensures win[w[0]] == win'[w[0]]
  {
    forall k | 0 <= k < |w| - 1 ensures Move(g, dom', win', str', w[k], w[k + 1]) {
      assert Move(g, dom, win, str, w[k], w[k + 1]);
    }
  }

  /** Attraction: a vertex whose owner can move into its own dominion, or cannot avoid the opponent's, joins it. */
  lemma AttractOne(g: Game, s: set<nat>, win: seq<Player>, str: seq<int>, u: nat, p: Player, to: int)
    requires PartialSolution(g, s, win, str) && u < g.Size() && u !in s
    requires if p == g.owner[u]
      then to >= 0 && to in s && g.Edge(u, to) && win[to] == p
      else (forall v: nat :: g.Edge(u, v) ==> v in s && win[v] == p)
    ensures PartialSolution(g, s + {u}, win[u := p], str[u := to])
  {
    var t, win', str' := s + {u}, win[u := p], str[u := to];
    assert RegionsClosed(g, t, win', str');
    assert forall x, v :: Move(g, t, win', str', x, v) ==> v in s;
    forall w | ClosedWalk(g, t, win', str', w) ensures Won(g, win', w) {
      forall k | 0 <= k < |w| ensures w[k] in s {
        if k == 0 { assert Move(g, t, win', str', w[|w| - 2], w[|w| - 2 + 1]); } else { assert Move(g, t, win', str', w[k - 1], w[k - 1 + 1]); }
      }
      WalkRestricts(g, t, win', str', s, win, str, w);
      assert Won(g, win, w);
    }
  }

  /** The winners and strategies of `a` on `s` and of `b` elsewhere. */
  function Merge<T>(s: set<nat>, a: seq<T>, b: seq<T>): (c: seq<T>)
    requires |a| == |b|
    ensures |c| == |a| && forall v :: 0 <= v < |c| ==> c[v] == if v in s then a[v] else b[v]
  {
    seq(|a|, v requires 0 <= v < |a| => if v in s then a[v] else b[v])
  }

  /** Once the solved part is closed under attraction, solving the rest on its own solves the whole game. */
  lemma Combine(g: Game, s: set<nat>, win: seq<Player>, str: seq<int>, win': seq<Player>, str': seq<int>)
    requires PartialSolution(g, s, win, str) && AttractorClosed(g, s, win)
    requires Shape(g, Vertices(g) - s, win', str') && CorrectSolution(g, Vertices(g) - s, win', str')
    ensures var w, t := Merge(s, win, win'), Merge(s, str, str');
      Shape(g, Vertices(g), w, t) && CorrectSolution(g, Vertices(g), w, t)
  {
    var all, rest := Vertices(g), Vertices(g) - s;
    var mw, mt := Merge(s, win, win'), Merge(s, str, str');
    assert RegionsClosed(g, all, mw, mt);
    forall w | ClosedWalk(g, all, mw, mt, w) ensures Won(g, mw, w) {
      WalkInside(g, all, mw, mt, w);
      ClosedWalkStays(g, all, mw, mt, s, w);
      if w[0] in s {
        WalkRestricts(g, all, mw, mt, s, win, str, w);
        assert Won(g, win, w);
      } else {
        WalkRestricts(g, all, mw, mt, rest, win', str', w);
        assert Won(g, win', w);
      }
    }
  }

  /** The rest of an attractor-closed part is again a game without dead ends. */
  lemma RestHasNoDeadEnds(g: Game, s: set<nat>, win: seq<Player>)
    requires g.Valid() && Within(g, s) && |win| == g.Size() && AttractorClosed(g, s, win)
    ensures Within(g, Vertices(g) - s) && NoDeadEnds(g, Vertices(g) - s)
  {
    hide Repelled;
    forall u | u in Vertices(g) - s ensures HasSuccessor(g, Vertices(g) - s, u) {
      var v :| v !in s && g.Edge(u, v);
      EdgeInside(g, u, v);
    }
  }
}
