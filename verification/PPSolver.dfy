/** The base solver of pp.cpp: priority promotion with regions that are always reset. */
module PPSolver {
  import opened ParityGames
  import opened Solutions
  import opened Zielonka
  import opened OinkFramework
  import opened PPRegions
  import opened PPAttraction
  import opened PPPromotion

  /** Region `p` has been extended by vertices from below, and nothing above it has changed. */
  ghost predicate Grown(s: View, t: View, p: int)
    requires |s.region| == |s.dis| && |t.region| == |t.dis|
  {
    && SameFrom(s, t, p + 1)
    && Level(s, p) <= Level(t, p) <= Level(s, p) + Below(s, p)
    && Below(t, p) <= Below(s, p)
  }

  lemma GrownTrans(s: View, t: View, u: View, p: int)
    requires |s.region| == |s.dis| && |t.region| == |t.dis| && |u.region| == |u.dis|
    requires Grown(s, t, p) && Grown(t, u, p)
    ensures Grown(s, u, p)
  {
  }

  lemma JoinGrown(s: View, p: nat, x: nat, to: int)
    requires |s.region| == |s.dis| == |s.str| && p < |s.regions| && x in Below(s, p)
    ensures Grown(s, Join(s, p, x, to), p) && Below(Join(s, p, x, to), p) == Below(s, p) - {x}
  {
  }

  lemma AimGrown(s: View, p: nat, x: nat, to: int)
    requires |s.region| == |s.dis| == |s.str| && x in Level(s, p)
    ensures Grown(s, Aim(s, x, to), p) && Below(Aim(s, x, to), p) == Below(s, p)
  {
  }

  lemma InitialTraced(g: Game, s: View)
    requires Sized(g, s)
    requires forall v :: v in Unsolved(s) ==> s.region[v] == g.priority[v]
    requires forall q :: 0 <= q < |s.regions| ==> s.regions[q] == []
    ensures Traced(g, s)
  {
  }

  class PPSolver {
    const oink: Oink
    const region: array<int>
    const regions: array<seq<nat>>
    const strategy: array<int>
    const inverse: array<nat>
    var promotions: nat

    constructor (o: Oink)
      requires o.Valid() && o.game.Sorted() && o.game.Size() > 0
      ensures Ok() && oink == o && Sized(o.game, Now()) && Traced(o.game, Now())
      ensures regions.Length == o.game.priority[o.game.Size() - 1] + 1
      ensures fresh(region) && fresh(regions) && fresh(strategy) && fresh(inverse)
    {
      hide Traced;
      var g := o.game;
      var n := g.Size();
      var maxPrio := g.priority[n - 1];
      oink := o;
      var r := new int[n];
      for i := 0 to n
        invariant forall v :: 0 <= v < i ==> r[v] == if o.disabled[v] then -2 else g.priority[v]
      {
        r[i] := if o.disabled[i] then -2 else g.priority[i];
      }
      var rs := new seq<nat>[maxPrio + 1](_ => []);
      regions, region := rs, r;
      strategy := new int[n](_ => -1);
      inverse := new nat[maxPrio + 1];
      promotions := 0;
      new;
      InitialTraced(g, Now());
    }

    ghost predicate Ok()
      reads this, oink, oink.solved, oink.disabled, oink.todo
    {
      && oink.Valid() && oink.game.Sorted()
      && region.Length == strategy.Length == oink.game.Size() && inverse.Length == regions.Length
      && (forall v :: 0 <= v < oink.game.Size() ==> oink.game.priority[v] < regions.Length)
      && region != strategy && region != oink.strategy && region != oink.outcount
      && strategy != oink.strategy && strategy != oink.outcount && inverse != oink.todo
    }

    /** The state as a value. */
    ghost function Now(): View
      reads oink.disabled, region, strategy, regions
    {
      View(oink.disabled[..], region[..], strategy[..], regions[..])
    }

    // -------------------------------------------------------------------------------------------------------
    // Attraction
    // -------------------------------------------------------------------------------------------------------

    method CanEscape(from: nat, prio: nat) returns (canEscape: bool)
      requires Ok() && from < oink.game.Size()
      ensures Sized(oink.game, Now()) && (canEscape <==> Escape(oink.game, Now(), prio, from))
    {
      hide Game.Sorted;
      var g := oink.game;
      canEscape := false;
      var k := 0;
      while k < |g.outs[from]|
        invariant 0 <= k <= |g.outs[from]| && !canEscape
        invariant forall j :: 0 <= j < k ==> g.outs[from][j] !in Below(Now(), prio)
      {
        var to := g.outs[from][k];
        if !oink.disabled[to] && region[to] < prio {
          assert to in Below(Now(), prio) && g.Edge(from, to);
          canEscape := true;
          break;
        }
        k := k + 1;
      }
    }

    /** One predecessor `from` of the region's vertex `cur`. */
    method Consider(from: nat, cur: nat, prio: nat, queue: seq<nat>, ghost seen: seq<nat>) returns (queue': seq<nat>)
      requires Ok() && Attracting(oink.game, Now(), prio, queue, cur, seen) && HasPriority(oink.game, prio)
      requires from < oink.game.Size() && oink.game.Edge(from, cur)
      modifies region, strategy, regions
      ensures Ok() && Attracting(oink.game, Now(), prio, queue', cur, seen + [from])
      ensures Grown(old(Now()), Now(), prio)
      ensures (queue' == queue && Below(Now(), prio) == Below(old(Now()), prio)) || Below(Now(), prio) < Below(old(Now()), prio)
    {
      hide Game.Valid, Game.Sorted, Traced, Listed, Guarded, Quasi, Awaits, Grown;
      Sizes(oink.game);
      ghost var s := Now();
      var g := oink.game;
      var pl := prio % 2;
      queue' := queue;
      SameGrown(s, prio);
      if oink.disabled[from] || region[from] > prio {
        Skip(g, s, prio, queue, cur, seen, from);
      } else if region[from] == prio {
        if g.owner[from] == pl && strategy[from] == -1 {
          AimInv(g, s, prio, queue, cur, seen, from);
          AimGrown(s, prio, from, cur);
          strategy[from] := cur;
          assert Now() == Aim(s, from, cur);
        } else {
          Skip(g, s, prio, queue, cur, seen, from);
        }
      } else if g.owner[from] == pl {
        queue' := JoinRegion(from, cur, prio, cur, queue, seen);
      } else {
        var canEscape := CanEscape(from, prio);
        if canEscape {
          Skip(g, s, prio, queue, cur, seen, from);
        } else {
          queue' := JoinRegion(from, cur, prio, -1, queue, seen);
        }
      }
    }

    lemma SameGrown(s: View, p: int)
      requires |s.region| == |s.dis| == |s.str|
      ensures Grown(s, s, p)
    {
    }

    method JoinRegion(from: nat, cur: nat, prio: nat, to: int, queue: seq<nat>, ghost seen: seq<nat>) returns (queue': seq<nat>)
      requires Ok() && Attracting(oink.game, Now(), prio, queue, cur, seen) && HasPriority(oink.game, prio)
      requires from in Below(Now(), prio)
      requires if oink.game.owner[from] == prio % 2 then to == cur && oink.game.Edge(from, cur)
        else to == -1 && !Escape(oink.game, Now(), prio, from)
      modifies region, strategy, regions
      ensures Ok() && Attracting(oink.game, Now(), prio, queue', cur, seen + [from])
      ensures Grown(old(Now()), Now(), prio) && Below(Now(), prio) < Below(old(Now()), prio)
    {
      hide Game.Valid, Game.Sorted, Attracting, Grown;
      ghost var s := Now();
      JoinInv(oink.game, s, prio, queue, cur, seen, from, to);
      JoinGrown(s, prio, from, to);
      regions[prio] := regions[prio] + [from];
      region[from] := prio;
      strategy[from] := to;
      queue' := queue + [from];
      assert Now() == Join(s, prio, from, to);
    }

    /** Attract from the vertices in the queue, or from the whole region if there are none. */
    method Attract(prio: nat, queue0: seq<nat>)
      requires Ok() && prio < regions.Length && HasPriority(oink.game, prio)
      requires Attracting(oink.game, Now(), prio, if queue0 == [] then regions[prio] else queue0, -1, [])
      modifies region, strategy, regions
      ensures Ok() && Traced(oink.game, Now()) && Fresh(oink.game, Now(), prio)
      ensures Grown(old(Now()), Now(), prio)
    {
      hide Game.Valid, Game.Sorted, Traced, Listed, Guarded, Quasi, Awaits, Grown, Fresh, Below;
      ghost var s := Now();
      SameGrown(s, prio);
      var queue := if queue0 == [] then regions[prio] else queue0;
      while queue != []
        invariant Ok() && Attracting(oink.game, Now(), prio, queue, -1, []) && Grown(s, Now(), prio)
        decreases Below(Now(), prio), |queue|
      {
        ghost var before := Now();
        var cur := queue[|queue| - 1];
        var rest := queue[..|queue| - 1];
        assert queue == rest + [cur];
        Pop(oink.game, Now(), prio, queue, rest, cur);
        queue := Expand(cur, prio, rest);
        GrownTrans(s, before, Now(), prio);
      }
      AllDone(oink.game, Now(), prio);
    }

    /** Attract the predecessors of `cur`, which has been taken off the queue. */
    method Expand(cur: nat, prio: nat, queue: seq<nat>) returns (queue': seq<nat>)
      requires Ok() && Attracting(oink.game, Now(), prio, queue, cur, []) && HasPriority(oink.game, prio)
      modifies region, strategy, regions
      ensures Ok() && Attracting(oink.game, Now(), prio, queue', -1, [])
      ensures Grown(old(Now()), Now(), prio)
      ensures (queue' == queue && Below(Now(), prio) == Below(old(Now()), prio)) || Below(Now(), prio) < Below(old(Now()), prio)
    {
      hide Game.Valid, Game.Sorted, Traced, Listed, Guarded, Quasi, Awaits, Grown, Below;
      Sizes(oink.game);
      ghost var s := Now();
      SameGrown(s, prio);
      var ins := oink.game.ins[cur];
      queue' := queue;
      var j := 0;
      while j < |ins|
        invariant 0 <= j <= |ins|
        invariant Ok() && Attracting(oink.game, Now(), prio, queue', cur, ins[..j]) && Grown(s, Now(), prio)
        invariant (queue' == queue && Below(Now(), prio) == Below(s, prio)) || Below(Now(), prio) < Below(s, prio)
      {
        assert ins[..j + 1] == ins[..j] + [ins[j]];
        EdgeBack(oink.game, cur, j);
        ghost var before := Now();
        queue' := Consider(ins[j], cur, prio, queue', ins[..j]);
        GrownTrans(s, before, Now(), prio);
        j := j + 1;
      }
      assert ins[..j] == ins;
      Done(oink.game, Now(), prio, queue', cur);
    }

    // -------------------------------------------------------------------------------------------------------
    // Setting up a region
    // -------------------------------------------------------------------------------------------------------

    /** Give the vertices of the list of region `p` that are still there back to the region of their priority. */
    method ResetRegion(p: nat)
      requires Ok() && Traced(oink.game, Now()) && p < regions.Length
      modifies region, strategy, regions
      ensures Ok() && Traced(oink.game, Now()) && SameFrom(old(Now()), Now(), p + 1)
      ensures regions[p] == [] && forall v :: v in Level(Now(), p) ==> oink.game.priority[v] == p
      ensures Below(Now(), p + 1) == Below(old(Now()), p + 1)
    {
      hide Game.Valid, Game.Sorted, HasPriority;
      ghost var s := Now();
      var list := regions[p];
      assert forall j :: 0 <= j < |list| ==> list[j] in s.regions[p];
      var j := 0;
      while j < |list|
        invariant 0 <= j <= |list| && regions[..] == s.regions
        invariant forall v :: 0 <= v < oink.game.Size() && v !in list[..j] ==> region[v] == s.region[v] && strategy[v] == s.str[v]
        invariant forall v :: 0 <= v < oink.game.Size() && v in list[..j] && !oink.disabled[v] ==>
          if s.region[v] == p then region[v] == oink.game.priority[v] && strategy[v] == -1
          else region[v] == s.region[v] && strategy[v] == s.str[v]
      {
        var v := list[j];
        if oink.disabled[v] {
          region[v] := -2;
        } else if region[v] == p {
          region[v] := oink.game.priority[v];
          strategy[v] := -1;
        }
        j := j + 1;
      }
      regions[p] := [];
      ResetDone(s, p);
    }

    lemma ResetDone(s: View, p: nat)
      requires Ok() && Sized(oink.game, s) && Traced(oink.game, s) && p < |s.regions|
      requires Now().dis == s.dis && Now().regions == s.regions[p := []]
      requires forall v :: v in Unsolved(s) ==>
        if v in s.regions[p] && s.region[v] == p then region[v] == oink.game.priority[v] && strategy[v] == -1
        else region[v] == s.region[v] && strategy[v] == s.str[v]
      ensures Traced(oink.game, Now()) && SameFrom(s, Now(), p + 1)
      ensures forall v :: v in Level(Now(), p) ==> oink.game.priority[v] == p
      ensures Below(Now(), p + 1) == Below(s, p + 1)
    {
      hide Game.Valid, Game.Sorted;
      var t := Now();
      forall v | v in Unsolved(t) && t.region[v] != oink.game.priority[v] ensures v in t.regions[t.region[v]] {
        assert v in s.regions[s.region[v]];
      }
      forall q, x | 0 <= q < |t.regions| && x in t.regions[q] ensures x < oink.game.Size() { assert x in s.regions[q]; }
      var above := p + 1;
      forall v: nat ensures v in Below(t, above) <==> v in Below(s, above) { assert v in Unsolved(s) ==> oink.game.priority[v] <= s.region[v]; }
    }

    /** The vertices of priority `p` after `i` are solved or in a higher region. */
    ghost predicate TopsUpTo(i: int, p: nat)
      requires Ok()
      reads this, oink, oink.solved, oink.disabled, oink.todo, region, strategy, regions
    {
      forall v :: 0 <= v < oink.game.Size() && v > i && oink.game.priority[v] == p ==> v !in Level(Now(), p)
    }

    /** Enter the vertices of priority `p` that are in region `p` into its list. */
    method PushTops(i: nat, p: nat)
      requires Ok() && Traced(oink.game, Now()) && p < regions.Length && regions[p] == []
      requires i < oink.game.Size() && oink.game.priority[i] == p && TopsUpTo(i, p)
      requires forall v :: v in Level(Now(), p) ==> oink.game.priority[v] == p
      modifies region, strategy, regions
      ensures Ok() && Traced(oink.game, Now()) && Listed(Now(), p) && SameFrom(old(Now()), Now(), p + 1)
      ensures Level(Now(), p) == Level(old(Now()), p) && Below(Now(), p + 1) == Below(old(Now()), p + 1)
      ensures forall v :: v in Level(Now(), p) ==> strategy[v] == -1
    {
      hide Game.Valid, HasPriority;
      ghost var s := Now();
      var j: int := i;
      while j >= 0 && oink.game.priority[j] == p
        invariant -1 <= j <= i
        invariant forall q :: 0 <= q < regions.Length && q != p ==> regions[q] == s.regions[q]
        invariant forall v :: v in Unsolved(s) ==> region[v] == s.region[v]
        invariant forall v :: v in Unsolved(s) ==> strategy[v] == if v in regions[p] then -1 else s.str[v]
        invariant forall v :: v in regions[p] <==> j < v && v in Level(s, p)
        invariant forall a, b :: 0 <= a < b < |regions[p]| ==> regions[p][a] != regions[p][b]
        decreases j
      {
        if region[j] != -2 {
          if oink.disabled[j] {
            region[j] := -2;
          } else if region[j] == p {
            regions[p] := regions[p] + [j];
            strategy[j] := -1;
          }
        }
        j := j - 1;
      }
      PushDone(s, p, j);
    }

    lemma PushDone(s: View, p: nat, j: int)
      requires Ok() && Sized(oink.game, s) && Traced(oink.game, s) && p < |s.regions| && s.regions[p] == []
      requires Now().dis == s.dis && |s.regions| == regions.Length && -1 <= j < oink.game.Size()
      requires j < 0 || oink.game.priority[j] < p
      requires exists i :: 0 <= i < oink.game.Size() && oink.game.priority[i] == p
      requires forall q :: 0 <= q < regions.Length && q != p ==> regions[q] == s.regions[q]
      requires forall v :: v in Unsolved(s) ==> region[v] == s.region[v]
      requires forall v :: v in Unsolved(s) ==> strategy[v] == if v in regions[p] then -1 else s.str[v]
      requires forall v :: v in regions[p] <==> j < v && v in Level(s, p)
      requires forall a, b :: 0 <= a < b < |regions[p]| ==> regions[p][a] != regions[p][b]
      requires forall v :: v in Level(s, p) ==> oink.game.priority[v] == p
      ensures Traced(oink.game, Now()) && Listed(Now(), p) && SameFrom(s, Now(), p + 1)
      ensures Level(Now(), p) == Level(s, p) && Below(Now(), p + 1) == Below(s, p + 1)
      ensures forall v :: v in Level(Now(), p) ==> strategy[v] == -1
    {
      var g, t := oink.game, Now();
      assert Level(t, p) == Level(s, p);
      forall v | v in Level(s, p) ensures v > j { }
      assert HasPriority(g, p);
      forall v | v in Unsolved(t) && t.region[v] != g.priority[v] ensures v in t.regions[t.region[v]] {
        assert v in s.regions[s.region[v]];
      }
      forall q, x | 0 <= q < |t.regions| && x in t.regions[q] ensures x < g.Size() { assert q != p ==> x in s.regions[q]; }
    }

    lemma NothingToReset(p: nat)
      requires Ok() && Traced(oink.game, Now()) && p < regions.Length && regions[p] == []
      ensures SameFrom(Now(), Now(), p + 1) && forall v :: v in Level(Now(), p) ==> oink.game.priority[v] == p
    {
    }

    lemma StillTop(s: View, v: nat, p: nat)
      requires Ok() && Sized(oink.game, s) && Traced(oink.game, s) && Traced(oink.game, Now())
      requires Below(Now(), p + 1) == Below(s, p + 1) && v < oink.game.Size() && oink.game.priority[v] == p
      ensures v in Level(Now(), p) <==> v in Level(s, p)
    {
      assert v in Below(Now(), p + 1) <==> v in Below(s, p + 1);
      assert v in Unsolved(Now()) ==> region[v] >= p;
      assert v in Unsolved(s) ==> s.region[v] >= p;
    }

    lemma ResetTops(s: View, i: int, p: nat)
      requires Ok() && Sized(oink.game, s) && Traced(oink.game, s) && Traced(oink.game, Now())
      requires Below(Now(), p + 1) == Below(s, p + 1)
      requires forall v :: 0 <= v < oink.game.Size() && v > i && oink.game.priority[v] == p ==> v !in Level(s, p)
      ensures TopsUpTo(i, p)
    {
      forall v | 0 <= v < oink.game.Size() && v > i && oink.game.priority[v] == p ensures v !in Level(Now(), p) { StillTop(s, v, p); }
    }

    lemma AfterAttract(s: View, u: View, i: int, p: nat)
      requires Ok() && Sized(oink.game, u) && Traced(oink.game, u)
      requires SameFrom(s, u, p + 1) && Grown(u, Now(), p)
      requires forall v :: 0 <= v < oink.game.Size() && v > i && oink.game.priority[v] == p ==> v !in Level(u, p)
      ensures SameFrom(s, Now(), p + 1) && TopsUpTo(i, p) && Level(u, p) <= Level(Now(), p)
    {
      SameFromTrans(s, u, Now(), p + 1);
      forall v | 0 <= v < oink.game.Size() && v > i && oink.game.priority[v] == p ensures v !in Level(Now(), p) {
        assert v in Unsolved(u) ==> u.region[v] >= p;
      }
    }

    /** Reset region `p`, enter its top vertices, and attract. */
    method SetupRegion(i: nat, p: nat) returns (nonempty: bool)
      requires Ok() && Traced(oink.game, Now()) && p < regions.Length
      requires i < oink.game.Size() && oink.game.priority[i] == p && TopsUpTo(i, p)
      requires Within(oink.game, Below(Now(), p + 1)) && NoDeadEnds(oink.game, Below(Now(), p + 1))
      modifies region, strategy, regions
      ensures Ok() && Traced(oink.game, Now()) && SameFrom(old(Now()), Now(), p + 1) && TopsUpTo(i, p)
      ensures nonempty ==> Fresh(oink.game, Now(), p) && Level(Now(), p) != {}
      ensures !nonempty ==> Level(Now(), p) == {} && regions[p] == []
    {
      hide Game.Valid, Game.Sorted, Traced, Fresh, SameFrom, NoDeadEnds, Grown, Attracting;
      var g := oink.game;
      ghost var s := Now();
      if regions[p] != [] {
        ResetRegion(p);
      } else {
        NothingToReset(p);
      }
      assert HasPriority(g, p);
      ghost var t := Now();
      ResetTops(s, i, p);
      PushTops(i, p);
      nonempty := regions[p] != [];
      ghost var u := Now();
      SameFromTrans(s, t, u, p + 1);
      if nonempty {
        assert regions[p][0] in Level(u, p);
        TopsInv(g, u, p);
        Attract(p, []);
        AfterAttract(s, u, i, p);
      }
    }
  
    // -------------------------------------------------------------------------------------------------------
    // The status of a region
    // -------------------------------------------------------------------------------------------------------

    /** The opponent's vertex `v` of region `p` can leave to region `r`. */
    ghost predicate Exit(p: nat, v: nat, w: nat, r: int)
      requires Ok()
      reads this, oink, oink.solved, oink.disabled, oink.todo, region, strategy, regions
    {
      v in Level(Now(), p) && oink.game.owner[v] != p % 2 && w in Unsolved(Now()) && oink.game.Edge(v, w) && region[w] == r
    }

    /** `lowest` is the lowest region above `p` among those exits of which `v` and `w` are asked for. */
    ghost predicate Lowest(p: nat, lowest: int)
      requires Ok()
      reads this, oink, oink.solved, oink.disabled, oink.todo, region, strategy, regions
    {
      lowest == -1 || (p < lowest && exists v, w :: Exit(p, v, w, lowest))
    }

    ghost predicate NotBelow(p: nat, v: nat, w: nat, lowest: int)
      requires Ok()
      reads this, oink, oink.solved, oink.disabled, oink.todo, region, strategy, regions
    {
      w in Unsolved(Now()) ==> region[w] <= p || (lowest != -1 && region[w] >= lowest)
    }

    /** A top vertex of the region from which the opponent cannot leave downwards, or from which the player stays. */
    ghost predicate TopHeld(p: nat, v: nat)
      requires Ok() && v < oink.game.Size()
      reads this, oink, oink.solved, oink.disabled, oink.todo, region, strategy, regions
    {
      v in Level(Now(), p) ==>
        if oink.game.owner[v] == p % 2 then strategy[v] != -1 else !Escape(oink.game, Now(), p, v)
    }

    /** Is the region closed in its subgame? */
    method TopsHeld(i: nat, p: nat) returns (held: bool)
      requires Ok() && Traced(oink.game, Now()) && p < regions.Length && Fresh(oink.game, Now(), p)
      requires i < oink.game.Size() && oink.game.priority[i] == p && TopsUpTo(i, p)
      requires Within(oink.game, Below(Now(), p + 1)) && NoDeadEnds(oink.game, Below(Now(), p + 1))
      ensures held <==> Held(oink.game, Now(), p)
      ensures !held ==> Below(Now(), p) != {}
    {
      hide Fresh, NoDeadEnds;
      FreshParts(oink.game, Now(), p);
      var g := oink.game;
      var pl := p % 2;
      var j: int := i;
      while j >= 0 && g.priority[j] == p
        invariant -1 <= j <= i
        invariant forall v :: 0 <= v < g.Size() && v > j && g.priority[v] == p ==> TopHeld(p, v)
        decreases j
      {
        if oink.disabled[j] || region[j] > p {
          assert j !in Level(Now(), p);
        } else {
          assert j in Level(Now(), p);
          if g.owner[j] == pl {
            if strategy[j] == -1 {
              OpenBelow(g, Now(), p, j);
              return false;
            }
          } else {
            var escape := CanEscape(j, p);
            if escape {
              ghost var w :| w in Below(Now(), p) && g.Edge(j, w);
              return false;
            }
          }
        }
        j := j - 1;
      }
      held := true;
      AllHeld(p, j);
    }

    lemma AllHeld(p: nat, j: int)
      requires Ok() && Guarded(oink.game, Now(), p) && -1 <= j < oink.game.Size() && (j < 0 || oink.game.priority[j] < p)
      requires forall v :: 0 <= v < oink.game.Size() && v > j && oink.game.priority[v] == p ==> TopHeld(p, v)
      ensures Held(oink.game, Now(), p)
    {
      forall v | v in Level(Now(), p)
        ensures if oink.game.owner[v] == p % 2 then strategy[v] != -1 else forall w :: w in Below(Now(), p) ==> !oink.game.Edge(v, w)
      {
        assert GuardedAt(oink.game, Now(), p, v);
        if oink.game.priority[v] == p {
          assert v > j;
          assert TopHeld(p, v);
        }
      }
    }

    /** A held region has no exit of the opponent to a lower region. */
    lemma NoLowerExit(p: nat, v: nat, to: nat)
      requires Ok() && Held(oink.game, Now(), p) && v in Level(Now(), p) && oink.game.owner[v] != p % 2
      requires to < oink.game.Size() && oink.game.Edge(v, to) && !oink.disabled[to]
      ensures region[to] >= p
    {
    }

    /** Take the exits of the opponent's vertex `v` into account. */
    method LowestFrom(v: nat, p: nat, lowest: int) returns (lowest': int)
      requires Ok() && v in Level(Now(), p) && oink.game.owner[v] != p % 2 && Lowest(p, lowest)
      requires Held(oink.game, Now(), p)
      ensures Lowest(p, lowest') && (lowest == -1 || (lowest' != -1 && lowest' <= lowest))
      ensures forall w :: oink.game.Edge(v, w) ==> NotBelow(p, v, w, lowest')
    {
      var outs := oink.game.outs[v];
      lowest' := lowest;
      var k := 0;
      while k < |outs|
        invariant 0 <= k <= |outs| && Lowest(p, lowest') && (lowest == -1 || (lowest' != -1 && lowest' <= lowest))
        invariant forall j :: 0 <= j < k ==> NotBelow(p, v, outs[j], lowest')
      {
        var to := outs[k];
        if !oink.disabled[to] {
          var r := region[to];
          // where the program would report a logic error
          NoLowerExit(p, v, to);
          assert r >= p;
          if r > p && (r < lowest' || lowest' == -1) {
            assert Exit(p, v, to, r);
            lowest' := r;
          }
        }
        k := k + 1;
      }
    }

    /** All exits of `v` have been taken into account. */
    ghost predicate Clear(p: nat, v: nat, lowest: int)
      requires Ok()
      reads this, oink, oink.solved, oink.disabled, oink.todo, region, strategy, regions
    {
      v < oink.game.Size() && (oink.game.owner[v] != p % 2 ==> forall w :: oink.game.Edge(v, w) ==> NotBelow(p, v, w, lowest))
    }

    lemma ClearLower(p: nat, v: nat, lowest: int, lowest': int)
      requires Ok() && Clear(p, v, lowest) && (lowest == -1 || (lowest' != -1 && lowest' <= lowest))
      ensures Clear(p, v, lowest')
    {
      assert forall w :: NotBelow(p, v, w, lowest) ==> NotBelow(p, v, w, lowest');
    }

    lemma NowClear(p: nat, v: nat, lowest: int)
      requires Ok() && v < oink.game.Size()
      requires oink.game.owner[v] != p % 2 ==> forall w :: oink.game.Edge(v, w) ==> NotBelow(p, v, w, lowest)
      ensures Clear(p, v, lowest)
    {
    }

    lemma NoneLowest(p: nat)
      requires Ok()
      ensures Lowest(p, -1)
    {
    }

    lemma StatusFound(p: nat, lowest: int)
      requires Ok() && Traced(oink.game, Now()) && p < regions.Length && FreshFrom(oink.game, Now(), p)
      requires Listed(Now(), p) && Lowest(p, lowest)
      requires forall k :: 0 <= k < |regions[p]| ==> Clear(p, regions[p][k], lowest)
      ensures lowest != -2
      ensures lowest == -1 ==> NoExits(oink.game, Now(), p)
      ensures lowest != -1 ==>
        p < lowest < regions.Length && lowest % 2 == p % 2 && ExitsFrom(oink.game, Now(), p, lowest) && Level(Now(), lowest) != {}
      ensures lowest != -1 ==> exists v, w :: Exit(p, v, w, lowest)
    {
      hide FreshFrom;
      forall v, w | v in Level(Now(), p) && oink.game.owner[v] != p % 2 && w in Unsolved(Now()) && oink.game.Edge(v, w)
        ensures region[w] <= p || (lowest != -1 && region[w] >= lowest)
      {
        assert v in regions[p];
        var k :| 0 <= k < |regions[p]| && regions[p][k] == v;
        assert Clear(p, regions[p][k], lowest) && NotBelow(p, v, w, lowest);
      }
      if lowest != -1 {
        var v, w :| Exit(p, v, w, lowest);
        ExitParity(oink.game, Now(), p, v, w);
        assert w in Level(Now(), lowest);
      }
    }

    /** The lowest region above `p` to which the opponent can leave region `p`, or -1. */
    method LowestExit(p: nat) returns (lowest: int)
      requires Ok() && p < regions.Length && Listed(Now(), p) && Held(oink.game, Now(), p)
      ensures Lowest(p, lowest) && forall k :: 0 <= k < |regions[p]| ==> Clear(p, regions[p][k], lowest)
    {
      hide Game.Valid, Game.Sorted, NotBelow, Lowest, Held, Clear, Listed;
      Sizes(oink.game);
      var list := regions[p];
      lowest := -1;
      NoneLowest(p);
      var j := 0;
      while j < |list|
        invariant 0 <= j <= |list| && Lowest(p, lowest)
        invariant forall k :: 0 <= k < j ==> Clear(p, list[k], lowest)
      {
        ListedIn(p, j);
        ghost var before := lowest;
        if oink.game.owner[list[j]] != p % 2 {
          lowest := LowestFrom(list[j], p, lowest);
        }
        forall k | 0 <= k < j ensures Clear(p, list[k], lowest) { ClearLower(p, list[k], before, lowest); }
        NowClear(p, list[j], lowest);
        j := j + 1;
      }
    }

    lemma ListedIn(p: nat, j: nat)
      requires Ok() && p < regions.Length && Listed(Now(), p) && j < |regions[p]|
      ensures regions[p][j] in Level(Now(), p) && regions[p][j] < oink.game.Size()
    {
      assert regions[p][j] in regions[p];
    }

    /** Is the region open, a dominion, or to be promoted to the lowest region to which the opponent can leave? */
    method GetRegionStatus(i: nat, p: nat) returns (res: int)
      requires Ok() && Traced(oink.game, Now()) && p < regions.Length && FreshFrom(oink.game, Now(), p)
      requires i < oink.game.Size() && oink.game.priority[i] == p && TopsUpTo(i, p)
      requires Within(oink.game, Below(Now(), p + 1)) && NoDeadEnds(oink.game, Below(Now(), p + 1))
      ensures res == -2 <==> !Held(oink.game, Now(), p)
      ensures res == -2 ==> Below(Now(), p) != {}
      ensures res == -1 ==> NoExits(oink.game, Now(), p)
      ensures res != -1 && res != -2 ==>
        p < res < regions.Length && res % 2 == p % 2 && ExitsFrom(oink.game, Now(), p, res) && Level(Now(), res) != {}
      ensures res != -1 && res != -2 ==> exists v, w :: Exit(p, v, w, res)
    {
      hide Fresh, FreshFrom, NoDeadEnds, Traced, TopHeld, Game.Valid, Game.Sorted, Lowest, Held, Clear;
      FreshAt(oink.game, Now(), p);
      var held := TopsHeld(i, p);
      if !held { return -2; }
      FreshParts(oink.game, Now(), p);
      res := LowestExit(p);
      StatusFound(p, res);
    }
  
    // -------------------------------------------------------------------------------------------------------
    // Promotion and dominions
    // -------------------------------------------------------------------------------------------------------

    /** Move the vertices of region `from` to region `to`, and attract from them. */
    method Promote(from: nat, to: nat)
      requires Ok() && Traced(oink.game, Now()) && from < to < regions.Length && FreshFrom(oink.game, Now(), from)
      requires Level(Now(), from) != {} && Level(Now(), to) != {} && to % 2 == from % 2
      requires Held(oink.game, Now(), from) && ExitsFrom(oink.game, Now(), from, to)
      modifies this`promotions, region, strategy, regions
      ensures Ok() && Traced(oink.game, Now()) && FreshFrom(oink.game, Now(), to)
      ensures SameFrom(old(Now()), Now(), to + 1)
      ensures Level(old(Now()), to) < Level(Now(), to)
      ensures forall v :: v in Level(Now(), to) && oink.game.priority[v] == to ==> v in Level(old(Now()), to)
    {
      hide Game.Valid, Game.Sorted, Traced, Fresh, FreshFrom, SameFrom, Held, ExitsFrom, Attracting, Promoted, Grown, Level;
      ghost var g, s := oink.game, Now();
      FreshAt(g, s, from);
      FreshHigher(g, s, from, to);
      PromotionReady(g, s, from, to);
      PromotedInv(g, s, from, to);
      var list := regions[from];
      MoveAll(list, from, to);
      ghost var t := Now();
      assert t == Promoted(s, from, to);
      Attract(to, list);
      promotions := promotions + 1;
      PromotedResult(g, s, t, Now(), from, to);
    }

    /** The region map and the lists of both regions. */
    method MoveAll(list: seq<nat>, from: nat, to: nat)
      requires Ok() && from < to < regions.Length && list == regions[from]
      requires forall k :: 0 <= k < |list| ==> list[k] < oink.game.Size()
      modifies region, regions
      ensures Ok() && Now() == Promoted(old(Now()), from, to)
    {
      hide Game.Valid, Game.Sorted;
      ghost var s := Now();
      var k := 0;
      while k < |list|
        invariant 0 <= k <= |list| && regions[..] == s.regions
        invariant forall v :: 0 <= v < oink.game.Size() ==> region[v] == if v in list[..k] then to else s.region[v]
      {
        region[list[k]] := to;
        k := k + 1;
      }
      assert list[..k] == list;
      regions[to] := regions[to] + list;
      regions[from] := [];
      assert region[..] == Promoted(s, from, to).region;
    }

    /** Mark the vertices of the region as won by its player. */
    method MarkAll(list: seq<nat>, p: nat)
      requires Ok() && oink.Todo() == [] && p < regions.Length && list == regions[p] && Listed(Now(), p)
      modifies oink`pointer, oink.solved, oink.winner, oink.strategy, oink.disabled, oink.todo
      ensures Ok() && oink.Todo() == list && oink.Solved() == old(oink.Solved()) + Elements(list)
      ensures oink.winner[..] == Merge(Elements(list), AllWon(oink.game, p % 2), old(oink.winner[..]))
      ensures oink.strategy[..] ==
        Merge(Elements(list), Reported(oink.game, AllWon(oink.game, p % 2), strategy[..]), old(oink.strategy[..]))
    {
      hide Game.Valid, Game.Sorted, MarkedUpTo, Merge, AllWon, Reported, Elements, SetOf, Listed, Level;
      var pl: Player := p % 2;
      ghost var s, solved0, winner0, strategy0 := Now(), oink.solved[..], oink.winner[..], oink.strategy[..];
      NothingMarked(pl);
      ListedUnsolved(p);
      var k := 0;
      while k < |list|
        invariant 0 <= k <= |list| && Ok() && oink.Todo() == list[..k]
        invariant MarkedUpTo(solved0, winner0, strategy0, list[..k], pl)
      {
        var v := list[k];
        MarkOne(v, pl, solved0, winner0, strategy0, list[..k]);
        assert list[..k + 1] == list[..k] + [v];
        k := k + 1;
      }
      assert list[..k] == list;
      AllMarked(solved0, winner0, strategy0, list, pl);
    }

    lemma ListedUnsolved(p: nat)
      requires Ok() && p < regions.Length && Listed(Now(), p)
      ensures forall k :: 0 <= k < |regions[p]| ==> regions[p][k] < oink.game.Size() && !oink.solved[..][regions[p][k]]
      ensures forall k :: 0 <= k < |regions[p]| ==> regions[p][k] !in regions[p][..k]
    {
      assert oink.disabled[..] == oink.solved[..];
      forall k | 0 <= k < |regions[p]|
        ensures regions[p][k] < oink.game.Size() && !oink.solved[..][regions[p][k]] && regions[p][k] !in regions[p][..k]
      {
        assert regions[p][k] in regions[p];
      }
    }

    method MarkOne(v: nat, pl: Player, ghost solved0: seq<bool>, ghost winner0: seq<Player>, ghost strategy0: seq<int>, ghost list: seq<nat>)
      requires Ok() && MarkedUpTo(solved0, winner0, strategy0, list, pl) && v < oink.game.Size() && !solved0[v] && v !in list
      modifies oink`pointer, oink.solved, oink.winner, oink.strategy, oink.disabled, oink.todo
      ensures Ok() && oink.Todo() == old(oink.Todo()) + [v] && MarkedUpTo(solved0, winner0, strategy0, list + [v], pl)
    {
      hide Game.Valid, Game.Sorted;
      Sizes(oink.game);
      oink.Solve(v, pl, if oink.game.owner[v] == pl then strategy[v] else -1);
    }

    lemma NothingMarked(pl: Player)
      requires Ok()
      ensures MarkedUpTo(oink.solved[..], oink.winner[..], oink.strategy[..], [], pl)
    {
    }

    lemma AllMarked(solved0: seq<bool>, winner0: seq<Player>, strategy0: seq<int>, list: seq<nat>, pl: Player)
      requires Ok() && MarkedUpTo(solved0, winner0, strategy0, list, pl)
      requires forall v :: v in list ==> v < oink.game.Size()
      ensures oink.Solved() == SetOf(solved0) + Elements(list)
      ensures oink.winner[..] == Merge(Elements(list), AllWon(oink.game, pl), winner0)
      ensures oink.strategy[..] == Merge(Elements(list), Reported(oink.game, AllWon(oink.game, pl), strategy[..]), strategy0)
    {
    }

    /** The vertices of `list` have been reported for `pl`, on top of the older solution. */
    ghost predicate MarkedUpTo(solved0: seq<bool>, winner0: seq<Player>, strategy0: seq<int>, list: seq<nat>, pl: Player)
      requires Ok()
      reads this, oink, oink.solved, oink.winner, oink.strategy, oink.disabled, oink.todo, strategy
    {
      && |solved0| == |winner0| == |strategy0| == oink.game.Size()
      && (forall v :: 0 <= v < oink.game.Size() ==> oink.solved[v] == (solved0[v] || v in list))
      && (forall v :: 0 <= v < oink.game.Size() ==> oink.winner[v] == if v in list then pl else winner0[v])
      && (forall v :: 0 <= v < oink.game.Size() ==>
            oink.strategy[v] == if v in list then (if oink.game.owner[v] == pl then strategy[v] else -1) else strategy0[v])
    }

    /** A closed region without exits is a dominion of the unsolved part. */
    lemma RegionDominion(s: View, p: nat, win: seq<Player>, str: seq<int>)
      requires Ok() && Sized(oink.game, s) && p < |s.regions| && Fresh(oink.game, s, p)
      requires Held(oink.game, s, p) && NoExits(oink.game, s, p)
      requires PartialSolution(oink.game, SetOf(s.dis), win, str) && AttractorClosed(oink.game, SetOf(s.dis), win)
      ensures PartialSolution(oink.game, SetOf(s.dis) + Level(s, p), Merge(Level(s, p), AllWon(oink.game, p % 2), win),
        Merge(Level(s, p), Reported(oink.game, AllWon(oink.game, p % 2), s.str), str))
    {
      var g, r, q := oink.game, Level(s, p), p % 2;
      FreshParts(g, s, p);
      hide Fresh, PartialSolution, AttractorClosed;
      forall u | u in r && g.owner[u] == q ensures s.str[u] >= 0 && s.str[u] in r && g.Edge(u, s.str[u]) {
        assert GuardedAt(g, s, p, u);
      }
      forall u, v | u in r && g.owner[u] != q && g.Edge(u, v) ensures v in SetOf(s.dis) || v in r {
        EdgeInside(g, u, v);
        if v in Unsolved(s) { assert v !in Below(s, p); }
      }
      AddDominion(g, SetOf(s.dis), win, str, r, q, s.str);
    }

    lemma ListIsLevel(s: View, p: nat)
      requires Sized(oink.game, s) && p < |s.regions| && Fresh(oink.game, s, p)
      ensures Listed(s, p) && Elements(s.regions[p]) == Level(s, p)
    {
    }

    lemma CountedParts()
      requires Ok() && oink.Counted(oink.Solved())
      ensures Within(oink.game, oink.Solved()) && Repelled(oink.game, oink.Solved(), oink.Solved(), oink.winner[..])
      ensures forall u :: 0 <= u < oink.game.Size() && u !in oink.Solved() ==>
        oink.outcount[u] == Pending(oink.game.outs[u], oink.Solved()) > 0
      ensures oink.Solved() == SetOf(Now().dis)
    {
      assert oink.disabled[..] == oink.solved[..];
    }

    lemma MarkedCounted(s: View, p: nat, pre: set<nat>, win: seq<Player>, count: seq<int>)
      requires Ok() && oink.outcount[..] == count && |win| == oink.game.Size() && p < |s.regions| && |s.region| == |s.dis| && pre == SetOf(s.dis) && Within(oink.game, pre)
      requires oink.Solved() == pre + Level(s, p) && Elements(oink.Todo()) == Level(s, p)
      requires Repelled(oink.game, pre, pre, win)
      requires forall u :: 0 <= u < oink.game.Size() && u !in pre ==> count[u] == Pending(oink.game.outs[u], pre) > 0
      requires oink.winner[..] == Merge(Level(s, p), AllWon(oink.game, p % 2), win)
      ensures oink.Counted(pre)
    {
      forall v ensures v in oink.Todo() <==> v in Level(s, p) { assert v in Elements(oink.Todo()) <==> v in Level(s, p); }
      forall u, v | 0 <= u < oink.game.Size() && u !in oink.Solved() && v in pre && oink.game.Edge(u, v)
        ensures oink.winner[v] != oink.game.owner[u] { assert oink.winner[..][v] == win[v]; }
    }

    lemma Shrunk(s: View, p: nat)
      requires Ok() && Sized(oink.game, s) && Traced(oink.game, s) && Level(s, p) != {}
      requires Now() == s.(dis := Now().dis) && |Now().dis| == |s.dis|
      requires SetOf(s.dis) + Level(s, p) <= oink.Solved()
      ensures Traced(oink.game, Now()) && Unsolved(Now()) < Unsolved(s)
    {
      assert oink.disabled[..] == oink.solved[..];
      forall v | v in Unsolved(Now()) ensures v in Unsolved(s) { assert v !in SetOf(s.dis); }
      var x :| x in Level(s, p);
      assert x in oink.Solved() && x !in Unsolved(Now()) && x in Unsolved(s);
    }

    /** Report the region as a dominion of its player, and attract to it. */
    method SetDominion(p: nat)
      requires Ok() && oink.Sound() && oink.Todo() == [] && oink.Counted(oink.Solved())
      requires AttractorClosed(oink.game, oink.Solved(), oink.winner[..])
      requires Traced(oink.game, Now()) && p < regions.Length && Fresh(oink.game, Now(), p) && Level(Now(), p) != {}
      requires Held(oink.game, Now(), p) && NoExits(oink.game, Now(), p)
      modifies oink`pointer, oink.solved, oink.winner, oink.strategy, oink.disabled, oink.todo, oink.outcount
      ensures Ok() && oink.Sound() && oink.Todo() == [] && oink.Counted(oink.Solved())
      ensures AttractorClosed(oink.game, oink.Solved(), oink.winner[..])
      ensures Traced(oink.game, Now()) && Unsolved(Now()) < Unsolved(old(Now()))
    {
      hide Game.Valid, Game.Sorted, Traced, Fresh, Held, NoExits, AttractorClosed, PartialSolution, Oink.Counted, Repelled, Merge, Level, Elements;
      ghost var g, s, pre := oink.game, Now(), oink.Solved();
      var list := regions[p];
      ghost var win, str, count := oink.winner[..], oink.strategy[..], oink.outcount[..];
      CountedParts();
      ListIsLevel(s, p);
      RegionDominion(s, p, win, str);
      MarkAll(list, p);
      MarkedCounted(s, p, pre, win, count);
      oink.Flush(pre);
      Shrunk(s, p);
    }
  
    // -------------------------------------------------------------------------------------------------------
    // The main loop
    // -------------------------------------------------------------------------------------------------------

    /** What is solved is a union of dominions and closed under attraction. */
    ghost predicate Flushed()
      requires Ok()
      reads this, oink, oink.solved, oink.disabled, oink.todo, oink.winner, oink.strategy, oink.outcount
    {
      && oink.Sound() && oink.Todo() == [] && oink.Counted(oink.Solved())
      && AttractorClosed(oink.game, oink.Solved(), oink.winner[..])
    }

    /** The regions from `lo` upwards are fresh, and the cursor `i` is at the last vertex of a lower priority; unless all is
        solved, something is left below `lo`. */
    ghost predicate Cursor(i: int, lo: nat)
      requires Ok()
      reads this, oink, oink.solved, oink.disabled, oink.todo, region, strategy, regions, inverse
    {
      && Traced(oink.game, Now()) && lo <= regions.Length && FreshFrom(oink.game, Now(), lo)
      && Between(oink.game, i, lo)
      && (Unsolved(Now()) != {} ==> Below(Now(), lo) != {})
      && Indexed(oink.game, Now(), inverse[..], lo)
    }

    lemma Alive(lo: nat)
      requires Ok() && Flushed() && Traced(oink.game, Now()) && lo <= regions.Length && FreshFrom(oink.game, Now(), lo)
      ensures Within(oink.game, Below(Now(), lo)) && NoDeadEnds(oink.game, Below(Now(), lo))
    {
      assert oink.disabled[..] == oink.solved[..];
      assert Below(Now(), regions.Length) == Vertices(oink.game) - oink.Solved();
      hide FreshFrom, Traced, Below, AttractorClosed, Oink.Counted, Oink.Sound, NoDeadEnds;
      RestHasNoDeadEnds(oink.game, oink.Solved(), oink.winner[..]);
      NoDeadFrom(oink.game, Now(), lo);
    }

    /** Start again from the highest priority. */
    lemma Restart()
      requires Ok() && oink.game.Size() > 0 && Traced(oink.game, Now())
      requires regions.Length == oink.game.priority[oink.game.Size() - 1] + 1
      ensures Cursor(oink.game.Size() - 1, regions.Length)
    {
      assert Below(Now(), regions.Length) == Unsolved(Now());
    }

    /** Go on to the next lower priority. */
    method SkipPriority(i0: nat, p: nat) returns (i: int)
      requires Ok() && i0 < oink.game.Size() && oink.game.priority[i0] == p
      ensures Between(oink.game, i, p) && i < i0
    {
      hide Game.Valid;
      i := i0;
      while i >= 0 && oink.game.priority[i] == p
        invariant -1 <= i <= i0 && (i < i0 || oink.game.priority[i] == p)
        invariant forall v :: 0 <= v < oink.game.Size() && v > i ==> oink.game.priority[v] >= p
        invariant i >= 0 ==> oink.game.priority[i] <= p
        decreases i
      {
        i := i - 1;
      }
    }

    /** The chain of promotions that starts with region `p0`: it ends with an open region or with a dominion. */
    method Chain(i0: nat, p0: nat) returns (i: int, ghost lo: nat)
      requires Ok() && Flushed() && Traced(oink.game, Now()) && p0 < regions.Length && oink.game.Size() > 0
      requires regions.Length == oink.game.priority[oink.game.Size() - 1] + 1
      requires FreshFrom(oink.game, Now(), p0) && Indexed(oink.game, Now(), inverse[..], p0)
      requires Level(Now(), p0) != {} && i0 == inverse[p0]
      modifies oink`pointer, oink.solved, oink.winner, oink.strategy, oink.disabled, oink.todo, oink.outcount
      modifies this`promotions, region, strategy, regions
      ensures Ok() && Flushed() && Cursor(i, lo) && inverse[..] == old(inverse[..])
      ensures Unsolved(Now()) < Unsolved(old(Now())) ||
        (Now().dis == old(Now()).dis && |Now().region| == |Now().dis| && Weight(Now(), lo) >= Weight(old(Now()), p0))
    {
      hide Game.Valid, Game.Sorted, Traced, FreshFrom, Fresh, Level, Below, Unsolved, Held, ExitsFrom, NoExits, Indexed;
      hide Oink.Counted, Oink.Sound, AttractorClosed, SameFrom, Weight, NoDeadEnds;
      ghost var g, s := oink.game, Now();
      i := i0;
      var p: nat := p0;
      while true
        invariant Ok() && Flushed() && Traced(g, Now()) && p < regions.Length && Now().dis == s.dis && inverse[..] == old(inverse[..])
        invariant FreshFrom(g, Now(), p) && Indexed(g, Now(), inverse[..], p) && Level(Now(), p) != {} && i == inverse[p]
        invariant Weight(Now(), p) >= Weight(s, p0)
        decreases Bound(s) - Weight(Now(), p)
      {
        ghost var before := Now();
        IndexedAt(g, before, inverse[..], p);
        FreshFromHigher(g, before, p, p + 1);
        WeightBounded(before, p);
        Alive(p + 1);
        var res := GetRegionStatus(i, p);
        if res == -2 {
          i := SkipPriority(i, p);
          lo := p;
          return;
        } else if res == -1 {
          FreshAt(g, before, p);
          SetDominion(p);
          SameUnsolved(before, s);
          i := oink.game.Size() - 1;
          lo := regions.Length;
          Restart();
          return;
        }
        Promote(p, res);
        Larger(Level(before, res), Level(Now(), res));
        WeightPromoted(before, Now(), p, res);
        WeightBounded(Now(), res);
        IndexedPromoted(g, before, Now(), inverse[..], p, res);
        i := inverse[res];
        p := res;
      }
    }
  
    /** Skip the vertices of priority `p` that are solved or in a higher region. */
    method SkipTaken(i0: nat, p: nat) returns (i: int)
      requires Ok() && i0 < oink.game.Size() && oink.game.priority[i0] == p
      ensures -1 <= i <= i0 && (i >= 0 ==> oink.game.priority[i] <= p)
      ensures i >= 0 && oink.game.priority[i] == p ==> !oink.disabled[i] && region[i] <= p
      ensures forall v :: i < v <= i0 ==> oink.game.priority[v] == p && (oink.disabled[v] || region[v] > p)
    {
      hide Game.Valid;
      i := i0;
      while i >= 0 && oink.game.priority[i] == p && (oink.disabled[i] || region[i] > p)
        invariant -1 <= i <= i0 && (i >= 0 ==> oink.game.priority[i] <= p)
        invariant forall v :: i < v <= i0 ==> oink.game.priority[v] == p && (oink.disabled[v] || region[v] > p)
        decreases i
      {
        i := i - 1;
      }
    }

    /** All vertices of priority `p` after `i` are taken. */
    ghost predicate Taken(i: int, i0: nat, p: nat)
      requires Ok()
      reads this, oink, oink.solved, oink.disabled, oink.todo, region
    {
      && -1 <= i <= i0 < oink.game.Size()
      && (forall v :: i < v <= i0 ==> oink.game.priority[v] == p && (oink.disabled[v] || region[v] > p))
      && (forall v :: 0 <= v < oink.game.Size() && v > i0 ==> oink.game.priority[v] > p)
    }

    lemma TakenTops(i: int, i0: nat, p: nat)
      requires Ok() && Taken(i, i0, p)
      ensures TopsUpTo(i, p)
    {
      hide Game.Valid, Game.Sorted;
    }

    /** With all vertices of the lowest priority taken, everything is solved. */
    lemma NothingLeft(i0: nat, p: nat, lo: nat)
      requires Ok() && Cursor(i0, lo) && Taken(-1, i0, p) && Below(Now(), p + 1) == Below(Now(), lo)
      ensures Unsolved(Now()) == {}
    {
      hide Game.Valid, Game.Sorted, FreshFrom, Indexed;
      var above := p + 1;
      forall v: nat ensures v !in Below(Now(), above) {
        if v in Unsolved(Now()) {
          assert oink.game.priority[v] <= region[v];
          assert v <= i0 || oink.game.priority[v] > p;
        }
      }
      assert Below(Now(), lo) == {};
    }

    /** The next lower priority: what lies between it and the last one is empty. */
    lemma NextPriority(i: nat, lo: nat, p: nat)
      requires Ok() && Flushed() && Cursor(i, lo) && p == oink.game.priority[i]
      ensures p < lo && FreshFrom(oink.game, Now(), p + 1) && Below(Now(), p + 1) == Below(Now(), lo)
      ensures Within(oink.game, Below(Now(), p + 1)) && NoDeadEnds(oink.game, Below(Now(), p + 1))
      ensures forall v :: 0 <= v < oink.game.Size() && v > i ==> oink.game.priority[v] > p
      ensures Indexed(oink.game, Now(), inverse[..], lo) && Traced(oink.game, Now())
    {
      Alive(lo);
      hide FreshFrom, NoDeadEnds, Indexed, Flushed;
      assert forall v :: 0 <= v < oink.game.Size() ==> oink.game.priority[v] <= p || oink.game.priority[v] >= lo;
      LowerTo(oink.game, Now(), lo, p);
    }

    /** Regions between `p` and `lo` being empty, the index covers them too. */
    lemma IndexedBetween(lo: nat, p: nat)
      requires Ok() && Indexed(oink.game, Now(), inverse[..], lo) && p < lo <= regions.Length
      requires Below(Now(), p + 1) == Below(Now(), lo)
      ensures Indexed(oink.game, Now(), inverse[..], p + 1)
    {
      forall r | p + 1 <= r < regions.Length && Level(Now(), r) != {} ensures LastTop(oink.game, Now(), inverse[r], r) {
        if r < lo { NoneBetween(Now(), p, lo, r); }
      }
    }

    lemma Emptied(s: View, i: nat, i0: nat, p: nat, lo: nat)
      requires Ok() && Sized(oink.game, s) && Traced(oink.game, s) && Traced(oink.game, Now()) && p < lo <= |s.regions|
      requires |s.regions| == regions.Length && SameFrom(s, Now(), p + 1) && regions[p] == []
      requires forall v :: v in Level(Now(), p) ==> oink.game.priority[v] == p
      requires Below(Now(), p + 1) == Below(s, p + 1) == Below(s, lo)
      requires FreshFrom(oink.game, s, p + 1) && Indexed(oink.game, s, inverse[..], p + 1)
      requires Within(oink.game, Below(s, p + 1)) && NoDeadEnds(oink.game, Below(s, p + 1))
      requires Unsolved(s) != {} ==> Below(s, lo) != {}
      requires i < i0 < oink.game.Size() && oink.game.priority[i] < p
      requires forall v :: i < v <= i0 ==> oink.game.priority[v] == p && (s.dis[v] || s.region[v] > p)
      requires forall v :: 0 <= v < oink.game.Size() && v > i0 ==> oink.game.priority[v] > p
      ensures Cursor(i, p) && Weight(Now(), p) > Weight(s, lo)
    {
      hide Fresh, NoDeadEnds, FreshFrom, Indexed, SameFrom, Weight, Level;
      var g, t := oink.game, Now();
      EmptiedLevel(s, i, i0, p);
      EmptyFresh(g, t, p);
      FreshFromStable(g, s, t, p + 1);
      FreshFromDown(g, t, p);
      IndexedDown(g, s, t, inverse[..], p);
      SameFromHigher(s, t, p + 1, lo);
      WeightSame(s, t, lo);
      WeightBelow(t, p, lo);
      SameUnsolved(s, t);
    }

    lemma EmptiedLevel(s: View, i: nat, i0: nat, p: nat)
      requires Ok() && Sized(oink.game, s) && SameFrom(s, Now(), p + 1)
      requires forall v :: v in Level(Now(), p) ==> oink.game.priority[v] == p
      requires Below(Now(), p + 1) == Below(s, p + 1)
      requires i < i0 < oink.game.Size() && oink.game.priority[i] < p
      requires forall v :: i < v <= i0 ==> oink.game.priority[v] == p && (s.dis[v] || s.region[v] > p)
      requires forall v :: 0 <= v < oink.game.Size() && v > i0 ==> oink.game.priority[v] > p
      ensures Level(Now(), p) == {}
    {
      var t := Now();
      forall v: nat ensures v !in Level(t, p) {
        if v in Unsolved(t) && oink.game.priority[v] == p {
          assert v in Below(s, p + 1) <==> v in Below(t, p + 1);
        }
      }
    }

    /** Give up on priority `p`, all vertices of which are taken: its region is empty. */
    method SkipEmpty(i: int, i0: nat, p: nat, ghost lo: nat)
      requires Ok() && Flushed() && Cursor(i0, lo) && p == oink.game.priority[i0] && Taken(i, i0, p)
      requires i >= 0 && oink.game.priority[i] < p
      modifies region, strategy, regions
      ensures Ok() && Flushed() && Cursor(i, p) && Now().dis == old(Now()).dis
      ensures |Now().region| == |Now().dis| && Weight(Now(), p) > Weight(old(Now()), lo)
    {
      hide Game.Valid, Traced, FreshFrom, Fresh, SameFrom, NoDeadEnds, Flushed, Indexed, Weight;
      ghost var s := Now();
      assert forall v :: i < v <= i0 ==> oink.game.priority[v] == p && (s.dis[v] || s.region[v] > p);
      NextPriority(i0, lo, p);
      IndexedBetween(lo, p);
      if regions[p] != [] {
        ResetRegion(p);
      } else {
        NothingToReset(p);
      }
      Emptied(s, i, i0, p, lo);
    }
  
    lemma SetUp(s: View, inv: seq<nat>, i: nat, p: nat, lo: nat, nonempty: bool)
      requires Ok() && Sized(oink.game, s) && p < lo <= |s.regions| && SameFrom(s, Now(), p + 1)
      requires FreshFrom(oink.game, s, p + 1) && Indexed(oink.game, s, inv, p + 1) && inverse[..] == inv[p := i]
      requires Within(oink.game, Below(s, p + 1)) && NoDeadEnds(oink.game, Below(s, p + 1))
      requires i < oink.game.Size() && oink.game.priority[i] == p && TopsUpTo(i, p)
      requires nonempty ==> Fresh(oink.game, Now(), p)
      requires !nonempty ==> Level(Now(), p) == {} && regions[p] == []
      ensures FreshFrom(oink.game, Now(), p) && Indexed(oink.game, Now(), inverse[..], p)
      ensures Below(Now(), p + 1) == Below(s, p + 1) && (!nonempty ==> Below(Now(), p) == Below(s, p + 1))
      ensures Weight(Now(), p) > Weight(s, lo)
    {
      hide Fresh, NoDeadEnds, FreshFrom, SameFrom, Weight, Level, Below;
      var g, t := oink.game, Now();
      SameBelow(s, t, p + 1);
      if !nonempty { EmptyFresh(g, t, p); }
      FreshFromStable(g, s, t, p + 1);
      FreshFromDown(g, t, p);
      forall r | p <= r < |t.regions| && Level(t, r) != {} ensures LastTop(g, t, inverse[r], r) {
        if r > p {
          SameSets(s, t, p + 1, r);
          assert LastTop(g, s, inv[r], r);
        }
      }
      SameFromHigher(s, t, p + 1, lo);
      WeightSame(s, t, lo);
      WeightBelow(t, p, lo);
    }

    /** One round of the main loop: set up the region of the next priority, and follow the promotions. */
    method Round(i0: nat, ghost lo0: nat) returns (i: int, ghost lo: nat)
      requires Ok() && Flushed() && Cursor(i0, lo0) && oink.game.Size() > 0
      requires regions.Length == oink.game.priority[oink.game.Size() - 1] + 1
      modifies oink`pointer, oink.solved, oink.winner, oink.strategy, oink.disabled, oink.todo, oink.outcount
      modifies this`promotions, region, strategy, regions, inverse
      ensures Ok() && Flushed() && -1 <= i < oink.game.Size()
      ensures lo <= regions.Length && (i >= 0 ==> Cursor(i, lo))
      ensures i < 0 ==> Unsolved(Now()) == {} || Cursor(i, lo)
      ensures i >= 0 ==> Progress(old(Now()), lo0, Now(), lo)
    {
      hide Game.Valid, Traced, FreshFrom, Fresh, SameFrom, NoDeadEnds, Flushed, Indexed, Weight, TopsUpTo;
      ghost var g, s := oink.game, Now();
      var p := oink.game.priority[i0];
      NextPriority(i0, lo0, p);
      i := SkipTaken(i0, p);
      assert Taken(i, i0, p);
      if i < 0 {
        NothingLeft(i0, p, lo0);
        lo := lo0;
        return;
      }
      if oink.game.priority[i] != p {
        SkipEmpty(i, i0, p, lo0);
        lo := p;
        return;
      }
      TakenTops(i, i0, p);
      IndexedBetween(lo0, p);
      ghost var inv := inverse[..];
      inverse[p] := i;
      var nonempty := SetupRegion(i, p);
      SetUp(s, inv, i, p, lo0, nonempty);
      if nonempty {
        ghost var before := Now();
        SameUnsolved(s, before);
        i, lo := Chain(i, p);
      } else {
        i := SkipPriority(i, p);
        lo := p;
      }
    }
  
    /** When the cursor has passed the first vertex, everything is solved. */
    lemma EndOfCursor(lo: nat)
      requires Ok() && Cursor(-1, lo)
      ensures Unsolved(Now()) == {}
    {
      hide Game.Valid, Game.Sorted, FreshFrom, Indexed;
      forall v: nat ensures v !in Below(Now(), lo) {
        if v in Unsolved(Now()) { assert oink.game.priority[v] <= region[v]; }
      }
      assert Below(Now(), lo) == {};
    }

    /** The main loop: it ends, and then everything is solved. */
    method Solve()
      requires Ok() && Flushed() && Traced(oink.game, Now()) && oink.game.Size() > 0
      requires regions.Length == oink.game.priority[oink.game.Size() - 1] + 1
      modifies oink`pointer, oink.solved, oink.winner, oink.strategy, oink.disabled, oink.todo, oink.outcount
      modifies this`promotions, region, strategy, regions, inverse
      ensures Ok() && Flushed() && Unsolved(Now()) == {}
    {
      hide Game.Valid, Game.Sorted, Traced, Flushed, Weight, Unsolved, FreshFrom, Indexed;
      var i := oink.game.Size() - 1;
      ghost var lo: nat := regions.Length;
      Restart();
      while i >= 0
        invariant Ok() && Flushed() && -1 <= i < oink.game.Size() && lo <= regions.Length
        invariant i >= 0 ==> Cursor(i, lo)
        invariant i < 0 ==> Unsolved(Now()) == {} || Cursor(i, lo)
        decreases Unsolved(Now()), Bound(Now()) - Weight(Now(), lo)
      {
        ghost var before, lo0 := Now(), lo;
        i, lo := Round(i, lo);
        if i < 0 { break; }
        Decreased(before, lo0, Now(), lo);
      }
      if Unsolved(Now()) != {} { EndOfCursor(lo); }
    }
  }

  /** The cursor lies between the priorities below `lo` and those from `lo` upwards. */
  ghost predicate Between(g: Game, i: int, lo: nat)
    requires g.Valid()
  {
    && -1 <= i < g.Size()
    && (forall v :: 0 <= v < g.Size() && v > i ==> g.priority[v] >= lo)
    && (i >= 0 ==> g.priority[i] < lo)
  }

  /** `inverse` holds, for each region from `lo` upwards, the last vertex of its priority that is in it or below. */
  ghost predicate Indexed(g: Game, s: View, inverse: seq<nat>, lo: nat)
    requires Sized(g, s)
  {
    && |inverse| == |s.regions|
    && forall r :: lo <= r < |s.regions| && Level(s, r) != {} ==> LastTop(g, s, inverse[r], r)
  }

  ghost predicate LastTop(g: Game, s: View, i: nat, r: nat)
    requires Sized(g, s)
  {
    i < g.Size() && g.priority[i] == r && forall v :: 0 <= v < g.Size() && v > i && g.priority[v] == r ==> v !in Level(s, r)
  }

  lemma IndexedAt(g: Game, s: View, inverse: seq<nat>, p: nat)
    requires Sized(g, s) && Indexed(g, s, inverse, p) && p < |s.regions| && Level(s, p) != {}
    ensures LastTop(g, s, inverse[p], p)
  {
  }

  lemma IndexedPromoted(g: Game, s: View, t: View, inverse: seq<nat>, p: nat, r: nat)
    requires Sized(g, s) && Sized(g, t) && Indexed(g, s, inverse, p) && p < r < |s.regions| && SameFrom(s, t, r + 1)
    requires Level(s, r) != {} && Level(s, r) < Level(t, r)
    requires forall v :: v in Level(t, r) && g.priority[v] == r ==> v in Level(s, r)
    ensures Indexed(g, t, inverse, r) && Level(t, r) != {}
  {
    forall q | r <= q < |t.regions| && Level(t, q) != {} ensures LastTop(g, t, inverse[q], q) {
      if q > r { SameSets(s, t, r + 1, q); }
      assert LastTop(g, s, inverse[q], q);
    }
  }

  lemma IndexedDown(g: Game, s: View, t: View, inverse: seq<nat>, p: nat)
    requires Sized(g, s) && Sized(g, t) && Indexed(g, s, inverse, p + 1) && SameFrom(s, t, p + 1) && Level(t, p) == {}
    ensures Indexed(g, t, inverse, p)
  {
    forall r | p <= r < |t.regions| && Level(t, r) != {} ensures LastTop(g, t, inverse[r], r) {
      SameSets(s, t, p + 1, r);
      assert LastTop(g, s, inverse[r], r);
    }
  }

  lemma NoneBetween(s: View, p: nat, lo: nat, r: nat)
    requires |s.region| == |s.dis| && Below(s, p + 1) == Below(s, lo) && p < r < lo
    ensures Level(s, r) == {}
  {
    forall v: nat ensures v !in Level(s, r) { assert v in Below(s, lo) <==> v in Below(s, p + 1); }
  }

  lemma SameFromHigher(s: View, t: View, p: int, q: int)
    requires SameFrom(s, t, p) && p <= q
    ensures SameFrom(s, t, q)
  {
  }

  lemma SameBelow(s: View, t: View, p: int)
    requires SameFrom(s, t, p)
    ensures Below(s, p) == Below(t, p)
  {
  }

  /** Vertices have been solved, or the weight of the fresh regions has grown. */
  ghost predicate Progress(s: View, lo: nat, t: View, lo': nat)
    requires |s.region| == |s.dis| && |t.region| == |t.dis| && lo <= |s.regions| && lo' <= |t.regions|
  {
    Unsolved(t) < Unsolved(s) || (t.dis == s.dis && |t.regions| == |s.regions| && Weight(t, lo') > Weight(s, lo))
  }

  lemma Decreased(s: View, lo: nat, t: View, lo': nat)
    requires |s.region| == |s.dis| && |t.region| == |t.dis| && lo <= |s.regions| && lo' <= |t.regions| && Progress(s, lo, t, lo')
    ensures Unsolved(t) < Unsolved(s) ||
      (Unsolved(t) == Unsolved(s) && Bound(t) == Bound(s) && Weight(s, lo) < Weight(t, lo') < Bound(t))
  {
    if t.dis == s.dis { SameUnsolved(s, t); }
    WeightBounded(t, lo');
  }

  lemma SameUnsolved(s: View, t: View)
    requires s.dis == t.dis
    ensures Unsolved(s) == Unsolved(t)
  {
  }

  lemma Larger(a: set<nat>, b: set<nat>)
    requires a < b
    ensures |a| < |b|
  {
    var x :| x in b && x !in a;
    SubsetSize(a, b - {x});
  }

  lemma FreshHigher(g: Game, s: View, p: nat, r: nat)
    requires Sized(g, s) && FreshFrom(g, s, p) && p <= r < |s.regions|
    ensures Fresh(g, s, r)
  {
  }

  lemma PromotionReady(g: Game, s: View, from: nat, to: nat)
    requires Sized(g, s) && Traced(g, s) && from < to < |s.regions| && Fresh(g, s, from) && Fresh(g, s, to)
    requires Level(s, from) != {} && Level(s, to) != {}
    ensures HasPriority(g, to) && s.regions[from] != []
    ensures forall k :: 0 <= k < |s.regions[from]| ==> s.regions[from][k] < g.Size()
  {
    FreshParts(g, s, from);
    FreshParts(g, s, to);
    hide Fresh;
    var v :| v in Level(s, from);
    assert v in s.regions[from];
    var w :| w in Level(s, to);
    assert w in s.regions[to];
    forall k | 0 <= k < |s.regions[from]| ensures s.regions[from][k] < g.Size() { assert s.regions[from][k] in s.regions[from]; }
  }

  lemma PromotedResult(g: Game, s: View, t: View, u: View, from: nat, to: nat)
    requires Sized(g, s) && Sized(g, t) && Sized(g, u) && Traced(g, s) && Traced(g, t) && from < to < |s.regions|
    requires FreshFrom(g, s, from) && t == Promoted(s, from, to) && SameFrom(s, t, to + 1)
    requires Grown(t, u, to) && Fresh(g, u, to) && Level(s, from) != {}
    ensures FreshFrom(g, u, to) && SameFrom(s, u, to + 1) && Level(s, to) < Level(u, to)
    ensures forall v :: v in Level(u, to) && g.priority[v] == to ==> v in Level(s, to)
  {
    hide Fresh, FreshFrom, Promoted, Traced, Level, Below, SameFrom, Grown;
    GrownSame(t, u, to);
    SameFromTrans(s, t, u, to + 1);
    FreshAt(g, s, from);
    FreshParts(g, s, from);
    PromotedSets(g, s, from, to);
    FreshFromHigher(g, s, from, to + 1);
    FreshFromStable(g, s, u, to + 1);
    FreshFromDown(g, u, to);
    PromotedLevel(s, t, u, from, to);
    PromotedTops(g, s, t, u, from, to);
  }

  lemma GrownSame(t: View, u: View, p: int)
    requires |t.region| == |t.dis| && |u.region| == |u.dis| && Grown(t, u, p)
    ensures SameFrom(t, u, p + 1)
  {
  }

  lemma FreshFromHigher(g: Game, s: View, p: int, r: int)
    requires Sized(g, s) && FreshFrom(g, s, p) && p <= r
    ensures FreshFrom(g, s, r)
  {
  }

  lemma FreshFromDown(g: Game, s: View, r: nat)
    requires Sized(g, s) && r < |s.regions| && Fresh(g, s, r) && FreshFrom(g, s, r + 1)
    ensures FreshFrom(g, s, r)
  {
    hide Fresh;
  }

  lemma PromotedLevel(s: View, t: View, u: View, from: nat, to: nat)
    requires |s.region| == |s.dis| && |t.region| == |t.dis| && |u.region| == |u.dis| && from < to
    requires Level(t, to) == Level(s, to) + Level(s, from) && Grown(t, u, to) && Level(s, from) != {}
    ensures Level(s, to) < Level(u, to)
  {
    var v :| v in Level(s, from);
    assert v in Level(u, to) && v !in Level(s, to);
  }

  lemma PromotedTops(g: Game, s: View, t: View, u: View, from: nat, to: nat)
    requires Sized(g, s) && Sized(g, t) && Sized(g, u) && Traced(g, s) && Traced(g, t) && from < to < |s.regions|
    requires Level(t, to) == Level(s, to) + Level(s, from) && Grown(t, u, to)
    ensures forall v :: v in Level(u, to) && g.priority[v] == to ==> v in Level(s, to)
  {
    forall v | v in Level(u, to) && g.priority[v] == to ensures v in Level(s, to) {
      assert v in Unsolved(t) ==> t.region[v] >= to;
      assert v in Unsolved(s) ==> s.region[v] >= to;
    }
  }

  lemma SameFromTrans(s: View, t: View, u: View, p: int)
    requires SameFrom(s, t, p) && SameFrom(t, u, p)
    ensures SameFrom(s, u, p)
  {
  }

  /** The solver as Oink runs it on what preprocessing has left over: it always ends, and the whole game is solved. */
  method Run(oink: Oink)
    requires oink.Valid() && oink.game.Sorted() && oink.game.Size() > 0
    requires oink.Sound() && oink.Todo() == [] && oink.Counted(oink.Solved())
    requires AttractorClosed(oink.game, oink.Solved(), oink.winner[..])
    modifies oink`pointer, oink.solved, oink.winner, oink.strategy, oink.disabled, oink.todo, oink.outcount
    ensures oink.Valid() && oink.Todo() == [] && oink.Solved() == Vertices(oink.game)
    ensures Shape(oink.game, Vertices(oink.game), oink.winner[..], oink.strategy[..])
    ensures CorrectSolution(oink.game, Vertices(oink.game), oink.winner[..], oink.strategy[..])
  {
    hide Game.Valid, Game.Sorted, AttractorClosed, Oink.Counted, Traced;
    var solver := new PPSolver(oink);
    solver.Solve();
    AllSolved(oink, solver);
  }

  lemma AllSolved(oink: Oink, solver: PPSolver)
    requires solver.oink == oink && solver.Ok() && solver.Flushed() && Unsolved(solver.Now()) == {}
    ensures oink.Todo() == [] && oink.Solved() == Vertices(oink.game)
    ensures Shape(oink.game, Vertices(oink.game), oink.winner[..], oink.strategy[..])
    ensures CorrectSolution(oink.game, Vertices(oink.game), oink.winner[..], oink.strategy[..])
  {
    assert oink.disabled[..] == oink.solved[..];
    forall v | v in Vertices(oink.game) ensures v in oink.Solved() { assert v !in Unsolved(solver.Now()); }
  }

  /** Oink::run with the self-loop preprocessor and this solver. */
  method SolveGame(oink: Oink)
    requires oink.Valid() && oink.Sound() && oink.Todo() == [] && oink.Counted(oink.Solved()) && oink.game.Sorted()
    modifies oink`pointer, oink.solved, oink.winner, oink.strategy, oink.disabled, oink.todo, oink.outcount
    ensures oink.Valid() && oink.Todo() == [] && oink.Solved() == Vertices(oink.game)
    ensures Shape(oink.game, Vertices(oink.game), oink.winner[..], oink.strategy[..])
    ensures CorrectSolution(oink.game, Vertices(oink.game), oink.winner[..], oink.strategy[..])
  {
    var _ := oink.SolveSelfloops();
    var solved := GameSolved(oink);
    if !solved {
      hide AttractorClosed, Oink.Counted, Game.Valid;
      Run(oink);
    }
  }

  /** The whole of it, from a game of which nothing is solved: a correct solution. */
  method SolveNew(g: Game) returns (winner: seq<Player>, strategy: seq<int>)
    requires g.Valid() && g.Sorted() && NoDeadEnds(g, Vertices(g))
    ensures Shape(g, Vertices(g), winner, strategy) && CorrectSolution(g, Vertices(g), winner, strategy)
  {
    hide NoDeadEnds, Game.Valid, Oink.Sound, Oink.Counted, CorrectSolution;
    var oink := NewOink(g);
    SolveGame(oink);
    winner, strategy := oink.winner[..], oink.strategy[..];
  }
}
