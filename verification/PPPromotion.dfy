/** What the status of a region means, what promotion keeps, and why the algorithm stops. */
module PPPromotion {
  import opened ParityGames
  import opened Solutions
  import opened Zielonka
  import opened PPRegions
  import opened PPAttraction

  // ---------------------------------------------------------------------------------------------------------
  // Setting up a region
  // ---------------------------------------------------------------------------------------------------------

  /** A region of top vertices without strategies, all of them waiting. */
  lemma TopsInv(g: Game, s: View, p: nat)
    requires Sized(g, s) && p < |s.regions| && Traced(g, s) && Listed(s, p)
    requires forall v :: v in Level(s, p) ==> g.priority[v] == p && s.str[v] == -1
    requires Within(g, Below(s, p + 1)) && NoDeadEnds(g, Below(s, p + 1))
    ensures Attracting(g, s, p, s.regions[p], -1, [])
  {
    var l, q := Level(s, p), AllWon(g, p % 2);
    forall w | ClosedWalk(g, l, q, s.str, w) ensures Won(g, q, w) {
      WalkInside(g, l, q, s.str, w);
      assert g.Parity(w[0]) == p % 2;
      assert TopParity(g, w, p % 2);
    }
    hide Quasi;
    forall u | 0 <= u < g.Size() ensures Awaits(g, s, p, s.regions[p], -1, [], u) {
      assert OnlyDue(g, l, s.regions[p], -1, [], u);
      if u in Below(s, p) && g.owner[u] != p % 2 {
        assert HasSuccessor(g, Below(s, p + 1), u);
        var v :| v in Below(s, p + 1) && g.Edge(u, v);
        if v in Level(s, p) {
          assert Due(s.regions[p], -1, [], u, v);
        } else {
          assert v in Below(s, p);
        }
      }
    }
  }

  /** A region without vertices is fresh. */
  lemma EmptyFresh(g: Game, s: View, r: nat)
    requires Sized(g, s) && r < |s.regions| && Level(s, r) == {} && s.regions[r] == []
    requires Within(g, Below(s, r + 1)) && NoDeadEnds(g, Below(s, r + 1))
    ensures Fresh(g, s, r) && Below(s, r) == Below(s, r + 1)
  {
    assert Below(s, r) == Below(s, r + 1) by {
      forall v | v in Below(s, r + 1) ensures v in Below(s, r) { assert v !in Level(s, r); }
    }
    forall u | u in Below(s, r) ensures MaximalAt(g, s, r, u) { assert HasSuccessor(g, Below(s, r + 1), u); }
    forall w ensures !ClosedWalk(g, {}, AllWon(g, r % 2), s.str, w) {
      assert |w| >= 2 ==> !Move(g, {}, AllWon(g, r % 2), s.str, w[0], w[0 + 1]);
    }
  }

  /** A priority that no vertex has makes an empty region. */
  lemma NoSuchPriority(g: Game, s: View, r: nat)
    requires Sized(g, s) && Traced(g, s) && r < |s.regions| && !HasPriority(g, r)
    ensures Level(s, r) == {} && s.regions[r] == []
  {
    assert s.regions[r] == [];
    forall v: nat ensures v !in Level(s, r) {
      assert v in Unsolved(s) && g.priority[v] == r ==> HasPriority(g, r);
    }
  }

  /** The regions of the priorities between two neighbouring ones are empty. */
  lemma {:induction false} LowerTo(g: Game, s: View, lo: nat, p: nat)
    requires Sized(g, s) && Traced(g, s) && p < lo <= |s.regions| && FreshFrom(g, s, lo)
    requires forall v :: 0 <= v < g.Size() ==> g.priority[v] <= p || g.priority[v] >= lo
    requires Within(g, Below(s, lo)) && NoDeadEnds(g, Below(s, lo))
    ensures FreshFrom(g, s, p + 1) && Below(s, p + 1) == Below(s, lo)
    decreases lo
  {
    hide Fresh;
    if p + 1 < lo {
      NoSuchPriority(g, s, lo - 1);
      EmptyFresh(g, s, lo - 1);
      LowerTo(g, s, lo - 1, p);
    }
  }

  // ---------------------------------------------------------------------------------------------------------
  // The status of a region
  // ---------------------------------------------------------------------------------------------------------

  /** The region is closed in its subgame. */
  ghost predicate Held(g: Game, s: View, p: nat)
    requires Sized(g, s)
  {
    forall v :: v in Level(s, p) ==>
      if g.owner[v] == p % 2 then s.str[v] != -1 else forall w :: w in Below(s, p) ==> !g.Edge(v, w)
  }

  /** The opponent leaves the region to regions from `r` upwards only. */
  ghost predicate ExitsFrom(g: Game, s: View, p: nat, r: int)
    requires Sized(g, s)
  {
    forall v, w :: v in Level(s, p) && g.owner[v] != p % 2 && w in Unsolved(s) && g.Edge(v, w) ==>
      s.region[w] <= p || s.region[w] >= r
  }

  ghost predicate NoExits(g: Game, s: View, p: nat)
    requires Sized(g, s)
  {
    forall v, w :: v in Level(s, p) && g.owner[v] != p % 2 && w in Unsolved(s) && g.Edge(v, w) ==> s.region[w] <= p
  }

  /** A top vertex without a strategy has a move below the region: there is something left below. */
  lemma OpenBelow(g: Game, s: View, p: nat, u: nat)
    requires Sized(g, s) && p < |s.regions| && TopsTold(g, s, p)
    requires Within(g, Below(s, p + 1)) && NoDeadEnds(g, Below(s, p + 1))
    requires u in Level(s, p) && g.owner[u] == p % 2 && s.str[u] == -1
    ensures Below(s, p) != {}
  {
    assert u in Below(s, p + 1) && HasSuccessor(g, Below(s, p + 1), u);
    var v :| v in Below(s, p + 1) && g.Edge(u, v);
    assert v !in Level(s, p);
    assert v in Below(s, p);
  }

  /** The opponent of a region leaves it to regions of the same parity only. */
  lemma ExitParity(g: Game, s: View, p: nat, v: nat, w: nat)
    requires Sized(g, s) && FreshFrom(g, s, p) && v in Level(s, p) && g.owner[v] != p % 2
    requires w in Unsolved(s) && g.Edge(v, w) && p < s.region[w] < |s.regions|
    ensures s.region[w] % 2 == p % 2
  {
    var r: nat := s.region[w];
    assert Fresh(g, s, r);
    FreshParts(g, s, r);
    hide Fresh, FreshFrom;
    assert v in Below(s, r) && w in Level(s, r);
    assert MaximalAt(g, s, r, v);
  }

  // ---------------------------------------------------------------------------------------------------------
  // Promotion
  // ---------------------------------------------------------------------------------------------------------

  /** The vertices of region `p` move to region `r`. */
  function Promoted(s: View, p: nat, r: nat): (t: View)
    requires p < |s.regions| && r < |s.regions| && p != r && |s.region| == |s.dis|
  {
    s.(region := seq(|s.region|, v requires 0 <= v < |s.region| => if v in s.regions[p] then r else s.region[v]),
       regions := s.regions[r := s.regions[r] + s.regions[p]][p := []])
  }

  lemma PromotedSets(g: Game, s: View, p: nat, r: nat)
    requires Sized(g, s) && p < r < |s.regions| && Listed(s, p)
    ensures var t := Promoted(s, p, r);
      Level(t, r) == Level(s, r) + Level(s, p) && Below(t, r) == Below(s, r) - Level(s, p)
  {
  }

  lemma DistinctAppend(a: seq<nat>, b: seq<nat>)
    requires forall j, k :: 0 <= j < k < |a| ==> a[j] != a[k]
    requires forall j, k :: 0 <= j < k < |b| ==> b[j] != b[k]
    requires forall x :: x in a ==> x !in b
    ensures forall j, k :: 0 <= j < k < |a + b| ==> (a + b)[j] != (a + b)[k]
  {
    forall j, k | 0 <= j < k < |a + b| ensures (a + b)[j] != (a + b)[k] {
      assert (a + b)[j] in if j < |a| then a else b;
      assert (a + b)[k] in if k < |a| then a else b;
    }
  }

  lemma PromotedShape(g: Game, s: View, p: nat, r: nat)
    requires Sized(g, s) && Traced(g, s) && p < r < |s.regions| && Listed(s, p) && Listed(s, r) && HasPriority(g, r)
    ensures var t := Promoted(s, p, r);
      Sized(g, t) && Traced(g, t) && Listed(t, r) && SameFrom(s, t, r + 1)
  {
    var t := Promoted(s, p, r);
    PromotedSets(g, s, p, r);
    DistinctAppend(s.regions[r], s.regions[p]);
    forall v | v in Unsolved(t) && t.region[v] != g.priority[v] ensures v in t.regions[t.region[v]] {
      if v !in s.regions[p] { assert v in s.regions[s.region[v]]; }
    }
    forall q, x | 0 <= q < |t.regions| && x in t.regions[q] ensures x < g.Size() { assert x in s.regions[q] || x in s.regions[p]; }
  }

  /** A closed region of the same parity becomes part of a higher region, from which attraction continues. */
  lemma PromotedInv(g: Game, s: View, p: nat, r: nat)
    requires Sized(g, s) && Traced(g, s) && p < r < |s.regions| && Fresh(g, s, p) && Fresh(g, s, r)
    requires Held(g, s, p) && ExitsFrom(g, s, p, r) && r % 2 == p % 2 && HasPriority(g, r)
    ensures Attracting(g, Promoted(s, p, r), r, s.regions[p], -1, []) && SameFrom(s, Promoted(s, p, r), r + 1)
    ensures Sized(g, Promoted(s, p, r)) && Traced(g, Promoted(s, p, r))
  {
    var t := Promoted(s, p, r);
    FreshParts(g, s, p);
    FreshParts(g, s, r);
    hide Fresh;
    PromotedShape(g, s, p, r);
    PromotedSets(g, s, p, r);
    PromotedGuarded(g, s, p, r);
    PromotedQuasi(g, s, p, r);
    hide Guarded, Quasi, Held, ExitsFrom, Promoted, Traced;
    assert t.str == s.str by { PromotedKeeps(s, p, r); }
    forall u | 0 <= u < g.Size() ensures Awaits(g, t, r, s.regions[p], -1, [], u) {
      PromotedAwaits(g, s, p, r, u);
    }
  }

  lemma PromotedKeeps(s: View, p: nat, r: nat)
    requires p < |s.regions| && r < |s.regions| && p != r && |s.region| == |s.dis|
    ensures Promoted(s, p, r).str == s.str && Promoted(s, p, r).dis == s.dis
  {
  }

  lemma PromotedGuarded(g: Game, s: View, p: nat, r: nat)
    requires Sized(g, s) && p < r < |s.regions| && Sized(g, Promoted(s, p, r)) && Listed(s, p)
    requires Guarded(g, s, p) && Guarded(g, s, r) && Held(g, s, p) && ExitsFrom(g, s, p, r) && r % 2 == p % 2
    ensures Guarded(g, Promoted(s, p, r), r)
  {
    var t := Promoted(s, p, r);
    PromotedSets(g, s, p, r);
    forall v | v in Level(t, r) ensures GuardedAt(g, t, r, v) {
      if v in Level(s, r) { assert GuardedAt(g, s, r, v); } else { assert GuardedAt(g, s, p, v); }
    }
  }

  lemma PromotedQuasi(g: Game, s: View, p: nat, r: nat)
    requires Sized(g, s) && p < r < |s.regions| && Sized(g, Promoted(s, p, r)) && Listed(s, p)
    requires Guarded(g, s, p) && Guarded(g, s, r) && Quasi(g, s, p) && Quasi(g, s, r) && r % 2 == p % 2
    ensures Quasi(g, Promoted(s, p, r), r)
  {
    var t := Promoted(s, p, r);
    PromotedSets(g, s, p, r);
    PromotedKeeps(s, p, r);
    var a, b, q: Player := Level(s, r), Level(s, p), r % 2;
    forall v | v in a + b ensures g.priority[v] <= r {
      if v in a { assert GuardedAt(g, s, r, v); } else { assert GuardedAt(g, s, p, v); }
    }
    forall u, v | u in a && v in b && Move(g, a + b, AllWon(g, q), s.str, u, v) ensures g.priority[u] == r {
      assert GuardedAt(g, s, r, u);
      assert v in Below(s, r);
    }
    CyclesJoin(g, a, b, q, s.str, r);
  }

  lemma PromotedAwaits(g: Game, s: View, p: nat, r: nat, u: nat)
    requires Sized(g, s) && p < r < |s.regions| && Sized(g, Promoted(s, p, r)) && Listed(s, p) && u < g.Size()
    requires Maximal(g, s, r) && TopsTold(g, s, r) && Held(g, s, p) && r % 2 == p % 2
    ensures Awaits(g, Promoted(s, p, r), r, s.regions[p], -1, [], u)
  {
    var t := Promoted(s, p, r);
    PromotedSets(g, s, p, r);
    assert forall v: nat :: v in Level(s, p) ==> Due(s.regions[p], -1, [], u, v);
    if u in Below(t, r) {
      assert MaximalAt(g, s, r, u);
      if g.owner[u] != r % 2 {
        var v :| v in Below(s, r) && g.Edge(u, v);
        if v in Level(s, p) {
          assert Due(s.regions[p], -1, [], u, v);
        } else {
          assert v in Below(t, r);
        }
      }
    }
  }

  // ---------------------------------------------------------------------------------------------------------
  // Termination
  // ---------------------------------------------------------------------------------------------------------

  function Pow(k: nat, e: nat): (r: nat)
    requires k > 0
    ensures r > 0
  {
    if e == 0 then 1 else PowStep(k, Pow(k, e - 1))
  }

  function PowStep(k: nat, x: nat): (r: nat)
    requires k > 0 && x > 0
    ensures r == k * x && r > 0
  {
    assert k * x > 0;
    k * x
  }

  /** The regions from `lo` upwards as a number: the size of a higher region outweighs all lower ones. */
  ghost function Weight(s: View, lo: nat): nat
    requires |s.region| == |s.dis| && lo <= |s.regions|
    decreases |s.regions| - lo
  {
    if lo == |s.regions| then 0
    else Times(|Level(s, lo)| + 1, Pow(|s.dis| + 2, lo)) + Weight(s, lo + 1)
  }

  function Times(a: nat, b: nat): (r: nat)
    ensures r == a * b
    ensures a > 0 ==> r >= b
  {
    assert a > 0 ==> a * b >= b;
    a * b
  }

  lemma {:induction false} SizeBelow(a: set<nat>, n: nat)
    requires forall v :: v in a ==> v < n
    ensures |a| <= n
    decreases n
  {
    if n == 0 {
      assert a == {};
    } else {
      SizeBelow(a - {n - 1}, n - 1);
      assert a <= (a - {n - 1}) + {n - 1};
    }
  }

  /** The arithmetic of one level: `a` vertices and one of weight `k`, where the next level weighs `n + 2` times as much. */
  lemma LevelWeight(a: nat, n: nat, k: nat, next: nat)
    requires a <= n && k > 0 && next == PowStep(n + 2, k)
    ensures 0 < Times(a + 1, k) <= next - k
  {
    assert next == (n + 1) * k + k;
    assert (a + 1) * k <= (n + 1) * k;
  }

  lemma {:induction false} WeightSame(s: View, t: View, lo: nat)
    requires lo <= |s.regions| && SameFrom(s, t, lo)
    ensures Weight(s, lo) == Weight(t, lo)
    decreases |s.regions| - lo
  {
    if lo < |s.regions| {
      SameSets(s, t, lo, lo);
      hide Level, Pow;
      assert SameFrom(s, t, lo + 1);
      WeightSame(s, t, lo + 1);
    }
  }

  /** What lies between `lo` and `hi` weighs less than one vertex at `hi`. */
  lemma {:induction false} WeightBelow(s: View, lo: nat, hi: nat)
    requires |s.region| == |s.dis| && lo <= hi <= |s.regions|
    ensures Weight(s, hi) <= Weight(s, lo) <= Weight(s, hi) + Pow(|s.dis| + 2, hi) - Pow(|s.dis| + 2, lo)
    ensures lo < hi ==> Weight(s, hi) < Weight(s, lo)
    decreases hi - lo
  {
    if lo < hi {
      WeightBelow(s, lo + 1, hi);
      SizeBelow(Level(s, lo), |s.dis|);
      LevelWeight(|Level(s, lo)|, |s.dis|, Pow(|s.dis| + 2, lo), Pow(|s.dis| + 2, lo + 1));
      hide Level, Times, PowStep;
    }
  }

  ghost function Bound(s: View): nat
    requires |s.region| == |s.dis|
  {
    Pow(|s.dis| + 2, |s.regions|)
  }

  lemma WeightBounded(s: View, lo: nat)
    requires |s.region| == |s.dis| && lo <= |s.regions|
    ensures Weight(s, lo) < Bound(s)
  {
    WeightBelow(s, lo, |s.regions|);
  }

  /** A promotion to `r` outweighs giving up the regions below `r`. */
  lemma WeightPromoted(s: View, t: View, p: nat, r: nat)
    requires p < r < |s.regions| && SameFrom(s, t, r + 1) && |Level(t, r)| > |Level(s, r)|
    ensures Weight(t, r) > Weight(s, p)
  {
    hide Level;
    WeightBelow(s, p, r);
    WeightSame(s, t, r + 1);
    MoreWeight(|Level(s, r)|, |Level(t, r)|, Pow(|s.dis| + 2, r));
  }

  lemma MoreWeight(a: nat, b: nat, k: nat)
    requires a < b
    ensures Times(b + 1, k) >= Times(a + 1, k) + k
  {
    assert (b + 1) * k >= (a + 2) * k;
    assert (a + 2) * k == (a + 1) * k + k;
  }
}
