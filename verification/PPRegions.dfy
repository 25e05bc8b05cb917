/** The regions of priority promotion: what holds of the regions from the current priority upwards, whatever has been left
    behind in the lower ones. */
module PPRegions {
  import opened ParityGames
  import opened Solutions
  import opened Zielonka

  /** The solved vertices, and for each vertex its region and strategy; `regions` lists the vertices of each region. */
  datatype View = View(dis: seq<bool>, region: seq<int>, str: seq<int>, regions: seq<seq<nat>>)

  ghost predicate Sized(g: Game, s: View) {
    && g.Valid() && g.Sorted()
    && |s.dis| == |s.region| == |s.str| == g.Size()
    && forall v :: 0 <= v < g.Size() ==> g.priority[v] < |s.regions|
  }

  ghost function Unsolved(s: View): set<nat> {
    set v: nat | v < |s.dis| && !s.dis[v]
  }

  /** The vertices of region `r`. */
  ghost function Level(s: View, r: int): set<nat>
    requires |s.region| == |s.dis|
  {
    set v: nat | v < |s.dis| && !s.dis[v] && s.region[v] == r
  }

  /** The subgame below region `r`. */
  ghost function Below(s: View, r: int): set<nat>
    requires |s.region| == |s.dis|
  {
    set v: nat | v < |s.dis| && !s.dis[v] && s.region[v] < r
  }

  /** A vertex outside the region of its own priority is in the list of its region, however old that list is. */
  ghost predicate Traced(g: Game, s: View)
    requires Sized(g, s)
  {
    && (forall v :: v in Unsolved(s) ==> g.priority[v] <= s.region[v] < |s.regions|)
    && (forall v :: v in Unsolved(s) && s.region[v] != g.priority[v] ==> v in s.regions[s.region[v]])
    && (forall q, x :: 0 <= q < |s.regions| && x in s.regions[q] ==> x < g.Size())
    && (forall q :: 0 <= q < |s.regions| && s.regions[q] != [] ==> HasPriority(g, q))
  }

  ghost predicate HasPriority(g: Game, q: nat) {
    exists v :: 0 <= v < g.Size() && g.priority[v] == q
  }

  ghost predicate Listed(s: View, r: nat)
    requires |s.region| == |s.dis| && r < |s.regions|
  {
    && (forall j, k :: 0 <= j < k < |s.regions[r]| ==> s.regions[r][j] != s.regions[r][k])
    && (forall v :: v in s.regions[r] <==> v in Level(s, r))
  }

  /** The player of the region stays in it, from its top vertices perhaps not yet; the opponent leaves it downwards only
      from top vertices. */
  ghost predicate GuardedAt(g: Game, s: View, r: nat, v: nat)
    requires Sized(g, s) && v < g.Size()
  {
    && g.priority[v] <= r
    && (if g.owner[v] == r % 2 then
          || (s.str[v] >= 0 && s.str[v] in Level(s, r) && g.Edge(v, s.str[v]))
          || (s.str[v] == -1 && g.priority[v] == r)
        else
          g.priority[v] < r ==> forall w :: w in Below(s, r) ==> !g.Edge(v, w))
  }

  ghost predicate Guarded(g: Game, s: View, r: nat)
    requires Sized(g, s)
  {
    forall v :: v in Level(s, r) ==> GuardedAt(g, s, r, v)
  }

  /** Every cycle that stays in the region is won by its player. */
  ghost predicate Quasi(g: Game, s: View, r: nat)
    requires Sized(g, s)
  {
    CyclesWon(g, Level(s, r), AllWon(g, r % 2), s.str)
  }

  ghost predicate Escape(g: Game, s: View, r: nat, u: nat)
    requires Sized(g, s) && u < g.Size()
  {
    HasSuccessor(g, Below(s, r), u)
  }

  /** Nothing below is attracted to the region. */
  ghost predicate MaximalAt(g: Game, s: View, r: nat, u: nat)
    requires Sized(g, s) && u < g.Size()
  {
    if g.owner[u] == r % 2 then forall v :: v in Level(s, r) ==> !g.Edge(u, v) else Escape(g, s, r, u)
  }

  ghost predicate Maximal(g: Game, s: View, r: nat)
    requires Sized(g, s)
  {
    forall u :: u in Below(s, r) ==> MaximalAt(g, s, r, u)
  }

  /** A top vertex that has no strategy has no move inside the region. */
  ghost predicate TopsTold(g: Game, s: View, r: nat)
    requires Sized(g, s)
  {
    forall u, v :: u in Level(s, r) && g.owner[u] == r % 2 && s.str[u] == -1 && v in Level(s, r) ==> !g.Edge(u, v)
  }

  ghost predicate Fresh(g: Game, s: View, r: nat)
    requires Sized(g, s) && r < |s.regions|
  {
    Listed(s, r) && Guarded(g, s, r) && Quasi(g, s, r) && Maximal(g, s, r) && TopsTold(g, s, r)
  }

  ghost predicate FreshFrom(g: Game, s: View, lo: int)
    requires Sized(g, s)
  {
    forall r :: 0 <= r < |s.regions| && lo <= r ==> Fresh(g, s, r)
  }

  lemma FreshAt(g: Game, s: View, r: nat)
    requires Sized(g, s) && FreshFrom(g, s, r) && r < |s.regions|
    ensures Fresh(g, s, r)
  {
  }

  // ---------------------------------------------------------------------------------------------------------
  // Changes below a region
  // ---------------------------------------------------------------------------------------------------------

  /** Nothing has changed at or above region `p`. */
  ghost predicate SameFrom(s: View, t: View, p: int) {
    && s.dis == t.dis && |s.region| == |t.region| == |s.dis| == |s.str| == |t.str| && |s.regions| == |t.regions|
    && (forall v :: 0 <= v < |s.dis| && !s.dis[v] && (s.region[v] >= p || t.region[v] >= p) ==>
          s.region[v] == t.region[v] && s.str[v] == t.str[v])
    && (forall r :: 0 <= r < |s.regions| && r >= p ==> s.regions[r] == t.regions[r])
  }

  lemma SameSets(s: View, t: View, p: int, r: int)
    requires SameFrom(s, t, p) && r >= p
    ensures Level(s, r) == Level(t, r) && Below(s, r) == Below(t, r)
  {
  }

  lemma FreshStable(g: Game, s: View, t: View, p: int, r: nat)
    requires Sized(g, s) && Sized(g, t) && SameFrom(s, t, p) && p <= r < |s.regions| && Fresh(g, s, r)
    ensures Fresh(g, t, r)
  {
    SameSets(s, t, p, r);
    forall v | v in Level(t, r) ensures GuardedAt(g, t, r, v) { assert GuardedAt(g, s, r, v); }
    forall u | u in Below(t, r) ensures MaximalAt(g, t, r, u) { assert MaximalAt(g, s, r, u); }
    var l, q := Level(s, r), AllWon(g, r % 2);
    forall w | ClosedWalk(g, l, q, t.str, w) ensures Won(g, q, w) {
      WalkInside(g, l, q, t.str, w);
      WalkRestricts(g, l, q, t.str, l, q, s.str, w);
    }
  }

  lemma FreshFromStable(g: Game, s: View, t: View, p: int)
    requires Sized(g, s) && Sized(g, t) && SameFrom(s, t, p) && FreshFrom(g, s, p)
    ensures FreshFrom(g, t, p)
  {
    hide Fresh;
    forall r | 0 <= r < |t.regions| && p <= r ensures Fresh(g, t, r) { FreshStable(g, s, t, p, r); }
  }

  /** Below a maximal region, the subgame has no dead ends. */
  lemma NoDeadBelow(g: Game, s: View, r: nat)
    requires Sized(g, s) && r < |s.regions| && Maximal(g, s, r)
    requires Within(g, Below(s, r + 1)) && NoDeadEnds(g, Below(s, r + 1))
    ensures Within(g, Below(s, r)) && NoDeadEnds(g, Below(s, r))
  {
    forall u | u in Below(s, r) ensures HasSuccessor(g, Below(s, r), u) {
      assert MaximalAt(g, s, r, u) && HasSuccessor(g, Below(s, r + 1), u);
      if g.owner[u] == r % 2 {
        var v :| v in Below(s, r + 1) && g.Edge(u, v);
        assert v !in Level(s, r);
        assert v in Below(s, r);
      }
    }
  }

  lemma {:induction false} NoDeadFrom(g: Game, s: View, lo: nat)
    requires Sized(g, s) && lo <= |s.regions| && FreshFrom(g, s, lo)
    requires Within(g, Below(s, |s.regions|)) && NoDeadEnds(g, Below(s, |s.regions|))
    ensures Within(g, Below(s, lo)) && NoDeadEnds(g, Below(s, lo))
    decreases |s.regions| - lo
  {
    hide Fresh, NoDeadEnds;
    if lo < |s.regions| {
      NoDeadFrom(g, s, lo + 1);
      assert Maximal(g, s, lo) by { assert Fresh(g, s, lo); FreshParts(g, s, lo); }
      NoDeadBelow(g, s, lo);
    }
  }

  lemma FreshParts(g: Game, s: View, r: nat)
    requires Sized(g, s) && r < |s.regions| && Fresh(g, s, r)
    ensures Listed(s, r) && Guarded(g, s, r) && Quasi(g, s, r) && Maximal(g, s, r) && TopsTold(g, s, r)
  {
  }

  // ---------------------------------------------------------------------------------------------------------
  // Cycles of joined regions
  // ---------------------------------------------------------------------------------------------------------

  /** If moves from `a` to `b` start at vertices of the highest priority only, no new cycles can be lost. */
  lemma CyclesJoin(g: Game, a: set<nat>, b: set<nat>, q: Player, str: seq<int>, top: nat)
    requires Shape(g, a + b, AllWon(g, q), str) && top % 2 == q
    requires CyclesWon(g, a, AllWon(g, q), str) && CyclesWon(g, b, AllWon(g, q), str)
    requires forall v :: v in a + b ==> g.priority[v] <= top
    requires forall u, v :: u in a && v in b && Move(g, a + b, AllWon(g, q), str, u, v) ==> g.priority[u] == top
    ensures CyclesWon(g, a + b, AllWon(g, q), str)
  {
    var win := AllWon(g, q);
    forall w | ClosedWalk(g, a + b, win, str, w) ensures Won(g, win, w) {
      WalkInside(g, a + b, win, str, w);
      if k :| 0 <= k < |w| && g.priority[w[k]] == top {
        assert TopParity(g, w, q);
      } else {
        forall k | 0 <= k < |w| - 1 ensures Stays(a - b, w, k) {
          assert Move(g, a + b, win, str, w[k], w[k + 1]);
        }
        WalkStays(a - b, w);
        if forall k :: 0 <= k < |w| ==> w[k] in a - b {
          WalkRestricts(g, a + b, win, str, a, win, str, w);
        } else {
          WalkRestricts(g, a + b, win, str, b, win, str, w);
        }
      }
    }
  }
}
