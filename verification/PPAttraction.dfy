/** Attraction to a region that is being extended: what is still due while vertices wait in the queue. */
module PPAttraction {
  import opened ParityGames
  import opened Solutions
  import opened Zielonka
  import opened PPRegions

  /** Vertex `v` waits in the queue, or is being processed and its predecessor `u` has not been looked at. */
  ghost predicate Due(queue: seq<nat>, cur: int, seen: seq<nat>, u: nat, v: nat) {
    v in queue || (v == cur && u !in seen)
  }

  ghost predicate HasDue(g: Game, queue: seq<nat>, cur: int, seen: seq<nat>, u: nat)
    requires u < |g.outs|
  {
    exists v: nat :: g.Edge(u, v) && Due(queue, cur, seen, u, v)
  }

  ghost predicate OnlyDue(g: Game, l: set<nat>, queue: seq<nat>, cur: int, seen: seq<nat>, u: nat)
    requires u < |g.outs|
  {
    forall v :: v in l && g.Edge(u, v) ==> Due(queue, cur, seen, u, v)
  }

  /** If `u` is attracted to the region, then by a vertex that is due. */
  ghost predicate Awaits(g: Game, s: View, p: nat, queue: seq<nat>, cur: int, seen: seq<nat>, u: nat)
    requires Sized(g, s) && u < g.Size()
  {
    if u in Below(s, p) then
      if g.owner[u] == p % 2 then OnlyDue(g, Level(s, p), queue, cur, seen, u)
      else Escape(g, s, p, u) || HasDue(g, queue, cur, seen, u)
    else
      u in Level(s, p) && g.owner[u] == p % 2 && s.str[u] == -1 ==> OnlyDue(g, Level(s, p), queue, cur, seen, u)
  }

  ghost predicate Attracting(g: Game, s: View, p: nat, queue: seq<nat>, cur: int, seen: seq<nat>) {
    && Sized(g, s) && p < |s.regions|
    && Traced(g, s) && Listed(s, p) && Guarded(g, s, p) && Quasi(g, s, p)
    && (forall v :: v in queue ==> v in Level(s, p))
    && (cur >= 0 ==> cur in Level(s, p))
    && (forall u :: 0 <= u < g.Size() ==> Awaits(g, s, p, queue, cur, seen, u))
  }

  /** The vertex `x` joins region `p`, with strategy `to`. */
  function Join(s: View, p: nat, x: nat, to: int): View
    requires p < |s.regions| && x < |s.region| == |s.str|
  {
    s.(region := s.region[x := p], str := s.str[x := to], regions := s.regions[p := s.regions[p] + [x]])
  }

  function Aim(s: View, x: nat, to: int): View
    requires x < |s.str|
  {
    s.(str := s.str[x := to])
  }

  // ---------------------------------------------------------------------------------------------------------
  // Taking a vertex off the queue, and leaving it
  // ---------------------------------------------------------------------------------------------------------

  lemma DuePop(g: Game, s: View, p: nat, queue: seq<nat>, queue': seq<nat>, v: nat, u: nat)
    requires Sized(g, s) && u < g.Size() && queue == queue' + [v]
    requires Awaits(g, s, p, queue, -1, [], u)
    ensures Awaits(g, s, p, queue', v, [], u)
  {
    if HasDue(g, queue, -1, [], u) {
      var x: nat :| g.Edge(u, x) && Due(queue, -1, [], u, x);
      assert Due(queue', v, [], u, x);
    }
  }

  lemma Pop(g: Game, s: View, p: nat, queue: seq<nat>, queue': seq<nat>, v: nat)
    requires Attracting(g, s, p, queue, -1, []) && queue == queue' + [v]
    ensures Attracting(g, s, p, queue', v, [])
  {
    hide Awaits, Guarded, Quasi, Listed, Traced;
    forall u | 0 <= u < g.Size() ensures Awaits(g, s, p, queue', v, [], u) { DuePop(g, s, p, queue, queue', v, u); }
    assert v == queue[|queue| - 1];
    forall x | x in queue' ensures x in Level(s, p) { assert x in queue; }
  }

  lemma DueDone(g: Game, s: View, p: nat, queue: seq<nat>, cur: nat, u: nat)
    requires Sized(g, s) && u < g.Size() && cur < g.Size()
    requires Awaits(g, s, p, queue, cur, g.ins[cur], u)
    ensures Awaits(g, s, p, queue, -1, [], u)
  {
    InsOuts(g, u, cur);
    if HasDue(g, queue, cur, g.ins[cur], u) {
      var x: nat :| g.Edge(u, x) && Due(queue, cur, g.ins[cur], u, x);
      assert Due(queue, -1, [], u, x);
    }
  }

  lemma Done(g: Game, s: View, p: nat, queue: seq<nat>, cur: nat)
    requires g.Valid() && cur < g.Size() && Attracting(g, s, p, queue, cur, g.ins[cur])
    ensures Attracting(g, s, p, queue, -1, [])
  {
    hide Awaits, Guarded, Quasi, Listed, Traced;
    forall u | 0 <= u < g.Size() ensures Awaits(g, s, p, queue, -1, [], u) { DueDone(g, s, p, queue, cur, u); }
  }

  /** When the queue is empty, the region is fresh. */
  lemma AllDone(g: Game, s: View, p: nat)
    requires Attracting(g, s, p, [], -1, [])
    ensures Fresh(g, s, p)
  {
    forall u | u in Below(s, p) ensures MaximalAt(g, s, p, u) {
      assert Awaits(g, s, p, [], -1, [], u);
      if g.owner[u] == p % 2 {
        forall v | v in Level(s, p) ensures !g.Edge(u, v) { assert !Due([], -1, [], u, v); }
      }
    }
    forall u, v | u in Level(s, p) && g.owner[u] == p % 2 && s.str[u] == -1 && v in Level(s, p) ensures !g.Edge(u, v) {
      assert Awaits(g, s, p, [], -1, [], u);
      assert !Due([], -1, [], u, v);
    }
  }

  // ---------------------------------------------------------------------------------------------------------
  // One predecessor
  // ---------------------------------------------------------------------------------------------------------

  lemma SeenOther(g: Game, s: View, p: nat, queue: seq<nat>, cur: nat, seen: seq<nat>, from: nat, u: nat)
    requires Sized(g, s) && u < g.Size() && u != from && Awaits(g, s, p, queue, cur, seen, u)
    ensures Awaits(g, s, p, queue, cur, seen + [from], u)
  {
    if HasDue(g, queue, cur, seen, u) {
      var x: nat :| g.Edge(u, x) && Due(queue, cur, seen, u, x);
      assert Due(queue, cur, seen + [from], u, x);
    }
    assert forall v: nat :: Due(queue, cur, seen, u, v) ==> Due(queue, cur, seen + [from], u, v);
  }

  /** A predecessor that has nothing to gain from `cur`: outside the subgame, settled, or able to escape. */
  lemma Skip(g: Game, s: View, p: nat, queue: seq<nat>, cur: nat, seen: seq<nat>, from: nat)
    requires Attracting(g, s, p, queue, cur, seen) && from < g.Size()
    requires from in Below(s, p) ==> g.owner[from] != p % 2 && Escape(g, s, p, from)
    requires from in Level(s, p) && g.owner[from] == p % 2 ==> s.str[from] != -1
    ensures Attracting(g, s, p, queue, cur, seen + [from])
  {
    forall u | 0 <= u < g.Size() ensures Awaits(g, s, p, queue, cur, seen + [from], u) {
      if u != from {
        assert Awaits(g, s, p, queue, cur, seen, u);
        SeenOther(g, s, p, queue, cur, seen, from, u);
      }
    }
  }

  /** A top vertex of the player without a strategy can now stay in the region. */
  lemma AimInv(g: Game, s: View, p: nat, queue: seq<nat>, cur: nat, seen: seq<nat>, from: nat)
    requires Attracting(g, s, p, queue, cur, seen) && from < g.Size() && g.Edge(from, cur)
    requires from in Level(s, p) && g.owner[from] == p % 2 && s.str[from] == -1
    ensures Attracting(g, Aim(s, from, cur), p, queue, cur, seen + [from])
    ensures SameFrom(s, Aim(s, from, cur), p + 1)
  {
    var t := Aim(s, from, cur);
    assert Level(t, p) == Level(s, p) && Below(t, p) == Below(s, p);
    assert g.priority[from] == p by { assert GuardedAt(g, s, p, from); }
    forall v | v in Level(t, p) ensures GuardedAt(g, t, p, v) { assert GuardedAt(g, s, p, v); }
    AimQuasi(g, s, p, from, cur);
    hide Guarded, Quasi, Listed;
    forall u | 0 <= u < g.Size() ensures Awaits(g, t, p, queue, cur, seen + [from], u) {
      assert Awaits(g, s, p, queue, cur, seen, u);
      if u != from {
        SeenOther(g, s, p, queue, cur, seen, from, u);
      }
    }
  }

  lemma AimQuasi(g: Game, s: View, p: nat, from: nat, cur: nat)
    requires Sized(g, s) && Guarded(g, s, p) && Quasi(g, s, p)
    requires from in Level(s, p) && g.priority[from] == p
    ensures Quasi(g, Aim(s, from, cur), p)
  {
    var t := Aim(s, from, cur);
    var l, q := Level(s, p), AllWon(g, p % 2);
    assert Level(t, p) == l;
    forall w | ClosedWalk(g, l, q, t.str, w) ensures Won(g, q, w) {
      WalkInside(g, l, q, t.str, w);
      if k :| 0 <= k < |w| && w[k] == from {
        forall j | 0 <= j < |w| ensures g.priority[w[j]] <= p { assert GuardedAt(g, s, p, w[j]); }
        assert TopParity(g, w, p % 2);
      } else {
        WalkRestricts(g, l, q, t.str, l - {from}, q, s.str, w);
        WalkRestricts(g, l - {from}, q, s.str, l, q, s.str, w);
      }
    }
  }

  /** The vertex `from` is attracted: its owner moves to `cur`, or it has nowhere else to go. */
  lemma JoinInv(g: Game, s: View, p: nat, queue: seq<nat>, cur: nat, seen: seq<nat>, from: nat, to: int)
    requires Attracting(g, s, p, queue, cur, seen) && from in Below(s, p) && HasPriority(g, p)
    requires if g.owner[from] == p % 2 then to == cur && g.Edge(from, cur) else to == -1 && !Escape(g, s, p, from)
    ensures Attracting(g, Join(s, p, from, to), p, queue + [from], cur, seen + [from])
    ensures SameFrom(s, Join(s, p, from, to), p + 1)
  {
    var t := Join(s, p, from, to);
    assert Level(t, p) == Level(s, p) + {from} && Below(t, p) == Below(s, p) - {from};
    JoinShape(g, s, p, from, to);
    JoinGuarded(g, s, p, from, to, cur);
    JoinQuasi(g, s, p, from, to, cur);
    hide Guarded, Quasi, Listed, Traced;
    forall u | 0 <= u < g.Size() ensures Awaits(g, t, p, queue + [from], cur, seen + [from], u) {
      assert Awaits(g, s, p, queue, cur, seen, u);
      if u != from { JoinAwaits(g, s, p, queue, cur, seen, from, to, u); }
    }
  }

  lemma JoinShape(g: Game, s: View, p: nat, from: nat, to: int)
    requires Sized(g, s) && p < |s.regions| && Traced(g, s) && Listed(s, p) && from in Below(s, p) && HasPriority(g, p)
    ensures var t := Join(s, p, from, to);
      Sized(g, t) && Traced(g, t) && Listed(t, p)
  {
    var t := Join(s, p, from, to);
    assert from !in Level(s, p) && Level(t, p) == Level(s, p) + {from};
    forall q, x | 0 <= q < |t.regions| && x in t.regions[q] ensures x < g.Size() { assert x != from ==> x in s.regions[q]; }
  }

  lemma JoinGuarded(g: Game, s: View, p: nat, from: nat, to: int, cur: nat)
    requires Sized(g, s) && p < |s.regions| && Traced(g, s) && Guarded(g, s, p) && from in Below(s, p) && cur in Level(s, p)
    requires if g.owner[from] == p % 2 then to == cur && g.Edge(from, cur) else to == -1 && !Escape(g, s, p, from)
    ensures Sized(g, Join(s, p, from, to)) && Guarded(g, Join(s, p, from, to), p)
  {
    var t := Join(s, p, from, to);
    assert Level(t, p) == Level(s, p) + {from} && Below(t, p) == Below(s, p) - {from};
    forall v | v in Level(t, p) ensures GuardedAt(g, t, p, v) {
      if v != from { assert GuardedAt(g, s, p, v); }
    }
  }

  lemma JoinQuasi(g: Game, s: View, p: nat, from: nat, to: int, cur: nat)
    requires Sized(g, s) && p < |s.regions| && Guarded(g, s, p) && Quasi(g, s, p) && from in Below(s, p) && cur in Level(s, p)
    requires g.priority[from] <= p
    requires if g.owner[from] == p % 2 then to == cur && g.Edge(from, cur) else to == -1 && !Escape(g, s, p, from)
    ensures Sized(g, Join(s, p, from, to)) && Quasi(g, Join(s, p, from, to), p)
  {
    var t := Join(s, p, from, to);
    var l, q := Level(s, p), AllWon(g, p % 2);
    assert Level(t, p) == l + {from};
    assert CyclesWon(g, l, q, t.str) by {
      forall w | ClosedWalk(g, l, q, t.str, w) ensures Won(g, q, w) {
        WalkInside(g, l, q, t.str, w);
        WalkRestricts(g, l, q, t.str, l, q, s.str, w);
      }
    }
    assert CyclesWon(g, {from}, q, t.str) by {
      assert !Move(g, {from}, q, t.str, from, from);
      forall w ensures !ClosedWalk(g, {from}, q, t.str, w) {
        assert |w| >= 2 ==> !Move(g, {from}, q, t.str, w[0], w[0 + 1]);
      }
    }
    forall u, v | u in l && v in {from} && Move(g, l + {from}, q, t.str, u, v) ensures g.priority[u] == p {
      assert GuardedAt(g, s, p, u);
    }
    forall v | v in l + {from} ensures g.priority[v] <= p { if v != from { assert GuardedAt(g, s, p, v); } }
    CyclesJoin(g, l, {from}, p % 2, t.str, p);
  }

  lemma JoinAwaits(g: Game, s: View, p: nat, queue: seq<nat>, cur: nat, seen: seq<nat>, from: nat, to: int, u: nat)
    requires Sized(g, s) && p < |s.regions| && from in Below(s, p) && u < g.Size() && u != from
    requires Awaits(g, s, p, queue, cur, seen, u)
    ensures Sized(g, Join(s, p, from, to))
    ensures Awaits(g, Join(s, p, from, to), p, queue + [from], cur, seen + [from], u)
  {
    var t := Join(s, p, from, to);
    assert Level(t, p) == Level(s, p) + {from} && Below(t, p) == Below(s, p) - {from};
    assert forall v: nat :: Due(queue, cur, seen, u, v) || v == from ==> Due(queue + [from], cur, seen + [from], u, v);
    if HasDue(g, queue, cur, seen, u) {
      var x: nat :| g.Edge(u, x) && Due(queue, cur, seen, u, x);
      assert Due(queue + [from], cur, seen + [from], u, x);
    } else if u in Below(s, p) && g.owner[u] != p % 2 {
      assert Escape(g, s, p, u);
      var x :| x in Below(s, p) && g.Edge(u, x);
      if x == from {
        assert Due(queue + [from], cur, seen + [from], u, x);
        assert HasDue(g, queue + [from], cur, seen + [from], u);
      } else {
        assert x in Below(t, p);
      }
    }
  }
}
