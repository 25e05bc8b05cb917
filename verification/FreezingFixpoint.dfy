/** Fixpoint iteration with freezing (FPISolver): what every pass over a priority block and every freeze keeps.

    Where FPJ records justifications, this solver only marks vertices as frozen at a priority. The invariant below
    is the reason why that suffices: a held vertex rests on vertices that no restart at a lower priority touches. */
module FreezingFixpoint {
  import opened ParityGames
  import opened FixpointJustification

  datatype Standing = Standing(distraction: seq<bool>, frozen: seq<nat>, strategy: seq<int>)

  ghost predicate Fits(g: Game, dis: seq<bool>, s: Standing) {
    Instance(g, dis) && |s.distraction| == |s.frozen| == |s.strategy| == g.Size()
  }

  /** The player for whom `v` counts as won. */
  ghost function Now(g: Game, s: Standing, v: nat): Player
    requires |s.distraction| == g.Size() && v < g.Size()
  {
    Value(g, s.distraction, v)
  }

  ghost function Wins(g: Game, s: Standing): (win: seq<Player>)
    requires |s.distraction| == g.Size()
    ensures |win| == g.Size() && forall v :: 0 <= v < g.Size() ==> win[v] == Now(g, s, v)
  {
    seq(g.Size(), v requires 0 <= v < g.Size() => Now(g, s, v))
  }

  /** Frozen vertices and distractions are not evaluated again. */
  predicate Held(s: Standing, v: nat)
    requires v < |s.distraction| && v < |s.frozen|
  {
    s.frozen[v] > 0 || s.distraction[v]
  }

  /** The priority at which `v` was frozen or became a distraction. */
  function Level(g: Game, s: Standing, v: nat): nat
    requires v < g.Size() && v < |s.frozen|
  {
    if s.frozen[v] > 0 then s.frozen[v] else g.priority[v]
  }

  ghost function HeldSet(g: Game, dis: seq<bool>, s: Standing): set<nat>
    requires Fits(g, dis, s)
  {
    set v | v in Dom(dis) && Held(s, v)
  }

  /** `u` is a move from `v` that the current values allow. */
  ghost predicate Leans(g: Game, s: Standing, v: nat, u: nat)
    requires g.Valid() && |s.distraction| == |s.strategy| == g.Size() && v < g.Size()
  {
    g.Edge(v, u) && (Now(g, s, v) == g.owner[v] ==> s.strategy[v] == u)
  }

  ghost predicate Chosen(g: Game, dis: seq<bool>, s: Standing, v: nat)
    requires Fits(g, dis, s) && v < g.Size()
  {
    Now(g, s, v) == g.owner[v] ==>
      0 <= s.strategy[v] < g.Size() && !dis[s.strategy[v]] && g.Edge(v, s.strategy[v])
  }

  /** The value of `v` is what its one-step rule gives. */
  ghost predicate Rests(g: Game, dis: seq<bool>, s: Standing, v: nat)
    requires Fits(g, dis, s) && v < g.Size()
  {
    && Chosen(g, dis, s, v)
    && forall u: nat :: u < g.Size() && !dis[u] && Leans(g, s, v, u) ==> Now(g, s, u) == Now(g, s, v)
  }

  /** A restart below the level of `v` leaves `u` alone. */
  ghost predicate OutOfReach(g: Game, s: Standing, v: nat, u: nat)
    requires v < g.Size() && u < g.Size() && |s.frozen| == g.Size()
  {
    g.priority[u] >= Level(g, s, v) || s.frozen[u] >= Level(g, s, v)
  }

  ghost predicate Anchored(g: Game, dis: seq<bool>, s: Standing, v: nat)
    requires Fits(g, dis, s) && v < g.Size()
  {
    forall u: nat :: u < g.Size() && !dis[u] && Leans(g, s, v, u) ==> OutOfReach(g, s, v, u)
  }

  /** A frozen vertex lies below the priority it is frozen at, which its current winner does not like. */
  ghost predicate FrozenBelow(g: Game, s: Standing, v: nat)
    requires |s.distraction| == |s.frozen| == g.Size() && v < g.Size()
  {
    s.frozen[v] > 0 ==> g.priority[v] < s.frozen[v] && Now(g, s, v) == 1 - s.frozen[v] % 2
  }

  ghost predicate HeldFirmly(g: Game, dis: seq<bool>, s: Standing)
    requires Fits(g, dis, s)
  {
    && (forall v: nat :: v in Dom(dis) ==> FrozenBelow(g, s, v))
    && (forall v: nat :: v in Dom(dis) && Held(s, v) ==> Rests(g, dis, s, v) && Anchored(g, dis, s, v))
  }

  /** The blocks below priority `top` were evaluated since the last restart and are stable. */
  ghost predicate Stable(g: Game, dis: seq<bool>, s: Standing, top: nat)
    requires Fits(g, dis, s)
  {
    forall v: nat :: v in Dom(dis) && !Held(s, v) && g.priority[v] < top ==> Rests(g, dis, s, v)
  }

  ghost predicate Inv(g: Game, dis: seq<bool>, s: Standing, top: nat) {
    && Fits(g, dis, s)
    && HeldFirmly(g, dis, s)
    && CyclesWon(g, HeldSet(g, dis, s), Wins(g, s), s.strategy)
    && Stable(g, dis, s, top)
  }

  function Zeros(n: nat): seq<nat> { seq(n, _ => 0) }

  lemma StartInv(g: Game, dis: seq<bool>, strategy: seq<int>)
    requires Instance(g, dis) && |strategy| == g.Size()
    ensures Inv(g, dis, Standing(AllFalse(g.Size()), Zeros(g.Size()), strategy), 0)
  {
    var s := Standing(AllFalse(g.Size()), Zeros(g.Size()), strategy);
    forall w | ClosedWalk(g, HeldSet(g, dis, s), Wins(g, s), s.strategy, w) ensures Won(g, Wins(g, s), w) {
      WalkInside(g, HeldSet(g, dis, s), Wins(g, s), s.strategy, w);
      assert w[0] in HeldSet(g, dis, s);
    }
  }

  // ---------------------------------------------------------------------------------------------------------
  // Closed walks
  // ---------------------------------------------------------------------------------------------------------

  ghost predicate AllRest(g: Game, dis: seq<bool>, s: Standing, area: set<nat>)
    requires Fits(g, dis, s)
  {
    area <= Dom(dis) && forall v :: v in area ==> Rests(g, dis, s, v)
  }

  lemma MoveLeans(g: Game, dis: seq<bool>, s: Standing, area: set<nat>, v: nat, u: nat)
    requires Fits(g, dis, s) && area <= Dom(dis)
    ensures Move(g, area, Wins(g, s), s.strategy, v, u) <==> v in area && u in area && Leans(g, s, v, u)
  {
  }

  /** Moves in `area` are moves of a standing with the same values and strategies there. */
  lemma SameMove(g: Game, dis: seq<bool>, s: Standing, t: Standing, area: set<nat>, v: nat, u: nat)
    requires Fits(g, dis, s) && Fits(g, dis, t) && area <= Dom(dis)
    requires v in area && u in area && Leans(g, t, v, u)
    requires Now(g, s, v) == Now(g, t, v) && s.strategy[v] == t.strategy[v]
    ensures Move(g, area, Wins(g, s), s.strategy, v, u)
  {
  }

  /** The value does not change along a closed walk of resting vertices. */
  lemma {:induction false} OneValue(g: Game, dis: seq<bool>, s: Standing, area: set<nat>, w: seq<nat>, k: nat)
    requires Fits(g, dis, s) && AllRest(g, dis, s, area) && k < |w|
    requires ClosedWalk(g, area, Wins(g, s), s.strategy, w)
    ensures w[k] in area && w[0] in area && Now(g, s, w[k]) == Now(g, s, w[0])
  {
    WalkInside(g, area, Wins(g, s), s.strategy, w);
    if k > 0 {
      OneValue(g, dis, s, area, w, k - 1);
      var before := k - 1;
      assert Move(g, area, Wins(g, s), s.strategy, w[before], w[before + 1]);
      MoveLeans(g, dis, s, area, w[before], w[before + 1]);
      assert Rests(g, dis, s, w[before]);
    }
  }

  /** A property that every move of a closed walk passes on holds everywhere on it once it holds somewhere. */
  lemma {:induction false} Forward(w: seq<nat>, good: set<nat>, k: nat, j: nat)
    requires |w| >= 2 && w[0] == w[|w| - 1] && k < |w| && j < |w| && w[k] in good
    requires forall i :: 0 <= i < |w| - 1 && w[i] in good ==> w[i + 1] in good
    ensures w[j] in good
    decreases if k <= j then 0 else 1, if k <= j then j - k else |w| - 1 - k
  {
    if k < j {
      Forward(w, good, k + 1, j);
    } else if k > j {
      if k == |w| - 1 { Forward(w, good, 0, j); } else { Forward(w, good, k + 1, j); }
    }
  }

  /** The held vertices whose level is at least `l`. */
  ghost function HeldFrom(g: Game, dis: seq<bool>, s: Standing, l: nat): set<nat>
    requires Fits(g, dis, s)
  {
    set v | v in Dom(dis) && Held(s, v) && Level(g, s, v) >= l
  }

  /** From a vertex held at a level that bounds the priorities of the walk, only such vertices are reached. */
  lemma HighLevelSpreads(g: Game, dis: seq<bool>, s: Standing, area: set<nat>, l: nat, v: nat, u: nat)
    requires Fits(g, dis, s) && HeldFirmly(g, dis, s) && area <= Dom(dis)
    requires Move(g, area, Wins(g, s), s.strategy, v, u)
    requires v in HeldFrom(g, dis, s, l) && g.priority[u] <= l && Now(g, s, v) == 1 - l % 2
    ensures u in HeldFrom(g, dis, s, l)
  {
    assert Rests(g, dis, s, v) && Anchored(g, dis, s, v);
    MoveLeans(g, dis, s, area, v, u);
    assert OutOfReach(g, s, v, u);
    if s.frozen[u] < l {
      assert g.priority[u] == l && Now(g, s, u) != g.Parity(u);
    }
  }

  /** A closed walk that is lost is a walk among held vertices. */
  lemma LostWalkHeld(g: Game, dis: seq<bool>, s: Standing, area: set<nat>, w: seq<nat>)
    requires Fits(g, dis, s) && HeldFirmly(g, dis, s) && AllRest(g, dis, s, area) && g.Sorted()
    requires ClosedWalk(g, area, Wins(g, s), s.strategy, w) && !Won(g, Wins(g, s), w)
    ensures forall k :: 0 <= k < |w| ==> w[k] in HeldSet(g, dis, s)
  {
    WalkInside(g, area, Wins(g, s), s.strategy, w);
    var top := HighestPosition(w);
    OneValue(g, dis, s, area, w, top);
    var x := w[top];
    if g.Parity(x) == Now(g, s, x) { WonAtTop(g, Wins(g, s), w, top); }
    assert s.distraction[x];
    forall k | 0 <= k < |w| ensures w[k] in HeldSet(g, dis, s) {
      HeldRound(g, dis, s, area, w, top, k);
    }
  }

  lemma HeldRound(g: Game, dis: seq<bool>, s: Standing, area: set<nat>, w: seq<nat>, top: nat, k: nat)
    requires Fits(g, dis, s) && HeldFirmly(g, dis, s) && AllRest(g, dis, s, area) && g.Sorted()
    requires ClosedWalk(g, area, Wins(g, s), s.strategy, w) && top < |w| && k < |w|
    requires forall j :: 0 <= j < |w| ==> w[j] <= w[top] < g.Size()
    requires w[top] in area && s.distraction[w[top]]
    ensures w[k] in HeldSet(g, dis, s)
  {
    var l := Level(g, s, w[top]);
    var good := HeldFrom(g, dis, s, l);
    assert FrozenBelow(g, s, w[top]);
    assert Now(g, s, w[top]) == 1 - l % 2;
    OneValue(g, dis, s, area, w, top);
    forall i | 0 <= i < |w| - 1 && w[i] in good ensures w[i + 1] in good {
      OneValue(g, dis, s, area, w, i);
      assert Move(g, area, Wins(g, s), s.strategy, w[i], w[i + 1]);
      assert g.priority[w[i + 1]] <= g.priority[w[top]] <= l;
      HighLevelSpreads(g, dis, s, area, l, w[i], w[i + 1]);
    }
    Forward(w, good, top, k);
  }

  lemma AmongHeld(g: Game, dis: seq<bool>, s: Standing, area: set<nat>, w: seq<nat>)
    requires Fits(g, dis, s) && area <= Dom(dis) && ClosedWalk(g, area, Wins(g, s), s.strategy, w)
    requires forall k :: 0 <= k < |w| ==> w[k] in HeldSet(g, dis, s)
    ensures ClosedWalk(g, HeldSet(g, dis, s), Wins(g, s), s.strategy, w)
  {
    forall k | 0 <= k < |w| - 1 ensures Move(g, HeldSet(g, dis, s), Wins(g, s), s.strategy, w[k], w[k + 1]) {
      assert Move(g, area, Wins(g, s), s.strategy, w[k], w[k + 1]);
    }
  }

  /** If the walks among held vertices are won, so are those among resting ones. */
  lemma WalkWon(g: Game, dis: seq<bool>, s: Standing, area: set<nat>, w: seq<nat>)
    requires Fits(g, dis, s) && HeldFirmly(g, dis, s) && AllRest(g, dis, s, area)
    requires CyclesWon(g, HeldSet(g, dis, s), Wins(g, s), s.strategy)
    requires ClosedWalk(g, area, Wins(g, s), s.strategy, w)
    ensures Won(g, Wins(g, s), w)
  {
    hide Rests, Now, Held, HeldFirmly;
    if !Won(g, Wins(g, s), w) {
      LostWalkHeld(g, dis, s, area, w);
      AmongHeld(g, dis, s, area, w);
    }
  }

  // ---------------------------------------------------------------------------------------------------------
  // One pass over a block
  // ---------------------------------------------------------------------------------------------------------

  /** The pass from `s` to `t` made `v` a distraction. */
  predicate Flips(s: Standing, t: Standing, v: nat)
    requires v < |s.distraction| && v < |t.distraction|
  {
    !s.distraction[v] && t.distraction[v]
  }

  /** A new distraction rests on values that were there before it, or on distractions found earlier in the pass. */
  ghost predicate FlipRests(g: Game, dis: seq<bool>, s: Standing, t: Standing, rank: seq<nat>, v: nat)
    requires Fits(g, dis, s) && Fits(g, dis, t) && |rank| == g.Size() && v < g.Size()
  {
    && Chosen(g, dis, t, v)
    && forall u: nat :: u < g.Size() && !dis[u] && Leans(g, t, v, u) ==>
         Now(g, t, u) == Now(g, t, v) && (Flips(s, t, u) ==> rank[u] < rank[v])
  }

  ghost predicate Untouched(s: Standing, t: Standing, v: nat)
    requires v < |s.distraction| == |s.strategy| && |t.distraction| == |t.strategy| == |s.distraction|
  {
    t.distraction[v] == s.distraction[v] && t.strategy[v] == s.strategy[v]
  }

  /** A pass over the block of priority `p`, in whichever order its vertices were evaluated. */
  ghost predicate Swept(g: Game, dis: seq<bool>, s: Standing, t: Standing, p: nat, rank: seq<nat>)
    requires Fits(g, dis, s) && Fits(g, dis, t) && |rank| == g.Size()
  {
    && t.frozen == s.frozen
    && (forall v: nat :: v < g.Size() && (dis[v] || Held(s, v) || g.priority[v] != p) ==> Untouched(s, t, v))
    && (forall v: nat :: v in Dom(dis) && Flips(s, t, v) ==> FlipRests(g, dis, s, t, rank, v))
  }

  ghost predicate Quiet(g: Game, dis: seq<bool>, s: Standing, t: Standing)
    requires Fits(g, dis, s) && Fits(g, dis, t)
  {
    forall v: nat :: v in Dom(dis) ==> !Flips(s, t, v)
  }

  /** The unheld vertices of priority `p` rest. */
  ghost predicate BlockRests(g: Game, dis: seq<bool>, t: Standing, p: nat)
    requires Fits(g, dis, t)
  {
    forall v: nat :: v in Dom(dis) && !Held(t, v) && g.priority[v] == p ==> Rests(g, dis, t, v)
  }

  lemma QuietVertex(g: Game, dis: seq<bool>, s: Standing, t: Standing, p: nat, rank: seq<nat>, v: nat)
    requires Fits(g, dis, s) && Fits(g, dis, t) && |rank| == g.Size() && Swept(g, dis, s, t, p, rank) && Quiet(g, dis, s, t)
    requires v in Dom(dis)
    ensures Now(g, t, v) == Now(g, s, v) && (Held(t, v) <==> Held(s, v)) && (FrozenBelow(g, s, v) ==> FrozenBelow(g, t, v))
    ensures Held(s, v) || g.priority[v] != p ==> t.strategy[v] == s.strategy[v]
  {
    if Held(s, v) || g.priority[v] != p { assert Untouched(s, t, v); } else { assert !Flips(s, t, v); }
  }

  lemma QuietRests(g: Game, dis: seq<bool>, s: Standing, t: Standing, p: nat, rank: seq<nat>, v: nat)
    requires Fits(g, dis, s) && Fits(g, dis, t) && |rank| == g.Size() && Swept(g, dis, s, t, p, rank) && Quiet(g, dis, s, t)
    requires v in Dom(dis) && Rests(g, dis, s, v) && (Held(s, v) || g.priority[v] != p)
    ensures Rests(g, dis, t, v) && (Anchored(g, dis, s, v) ==> Anchored(g, dis, t, v))
  {
    QuietVertex(g, dis, s, t, p, rank, v);
    forall u: nat | u < g.Size() && !dis[u] && Leans(g, t, v, u)
      ensures Leans(g, s, v, u) && Now(g, t, u) == Now(g, t, v)
    {
      assert u in Dom(dis);
      QuietVertex(g, dis, s, t, p, rank, u);
      assert Leans(g, s, v, u);
    }
    if Anchored(g, dis, s, v) {
      forall u: nat | u < g.Size() && !dis[u] && Leans(g, t, v, u) ensures OutOfReach(g, t, v, u) {
        assert OutOfReach(g, s, v, u);
      }
    }
  }

  /** A pass that finds no distraction moves on to the next priority. */
  lemma QuietInv(g: Game, dis: seq<bool>, s: Standing, t: Standing, p: nat, rank: seq<nat>)
    requires Inv(g, dis, s, p) && Fits(g, dis, t) && |rank| == g.Size()
    requires Swept(g, dis, s, t, p, rank) && Quiet(g, dis, s, t)
    requires BlockRests(g, dis, t, p)
    ensures Inv(g, dis, t, p + 1)
  {
    hide Rests, Anchored, Swept, Quiet, FrozenBelow, CyclesWon, Held, Now, Game.Valid;
    forall v | v in Dom(dis) ensures FrozenBelow(g, t, v) && (Held(t, v) <==> Held(s, v)) {
      QuietVertex(g, dis, s, t, p, rank, v);
    }
    forall v | v in Dom(dis) && Held(t, v) ensures Rests(g, dis, t, v) && Anchored(g, dis, t, v) {
      QuietRests(g, dis, s, t, p, rank, v);
    }
    forall v | v in Dom(dis) && !Held(t, v) && g.priority[v] < p + 1 ensures Rests(g, dis, t, v) {
      if g.priority[v] < p { QuietRests(g, dis, s, t, p, rank, v); }
    }
    QuietCycles(g, dis, s, t, p, rank);
  }

  lemma QuietCycles(g: Game, dis: seq<bool>, s: Standing, t: Standing, p: nat, rank: seq<nat>)
    requires Inv(g, dis, s, p) && Fits(g, dis, t) && |rank| == g.Size()
    requires Swept(g, dis, s, t, p, rank) && Quiet(g, dis, s, t)
    ensures CyclesWon(g, HeldSet(g, dis, t), Wins(g, t), t.strategy)
  {
    var area := HeldSet(g, dis, t);
    forall v | v in Dom(dis) ensures Now(g, t, v) == Now(g, s, v) && (v in area <==> v in HeldSet(g, dis, s)) {
      QuietVertex(g, dis, s, t, p, rank, v);
    }
    assert area == HeldSet(g, dis, s);
    forall w | ClosedWalk(g, area, Wins(g, t), t.strategy, w) ensures Won(g, Wins(g, t), w) {
      WalkInside(g, area, Wins(g, t), t.strategy, w);
      forall k | 0 <= k < |w| - 1 ensures Move(g, area, Wins(g, s), s.strategy, w[k], w[k + 1]) {
        assert Move(g, area, Wins(g, t), t.strategy, w[k], w[k + 1]);
        QuietVertex(g, dis, s, t, p, rank, w[k]);
        SameMove(g, dis, s, t, area, w[k], w[k + 1]);
      }
      assert ClosedWalk(g, area, Wins(g, s), s.strategy, w);
      assert Won(g, Wins(g, s), w);
      assert Wins(g, s)[w[0]] == Wins(g, t)[w[0]];
    }
  }

  // ---------------------------------------------------------------------------------------------------------
  // Freezing, thawing and resetting
  // ---------------------------------------------------------------------------------------------------------

  /** What a restart at priority `p` makes of a lower vertex with parity `par`. */
  function Refreeze(par: Player, frozen: nat, distraction: bool, p: nat): (nat, bool) {
    if frozen >= p then (frozen, distraction)
    else if frozen > 0 then
      if frozen % 2 == p % 2 then (p, distraction) else (0, false)
    else if distraction then
      if par == p % 2 then (p, true) else (0, false)
    else if par != p % 2 then (p, false)
    else (0, false)
  }

  function RefrozenAt(g: Game, dis: seq<bool>, s: Standing, p: nat, v: nat): (nat, bool)
    requires v < g.Size() == |dis| == |s.distraction| == |s.frozen|
  {
    if !dis[v] && g.priority[v] < p then Refreeze(g.Parity(v), s.frozen[v], s.distraction[v], p)
    else (s.frozen[v], s.distraction[v])
  }

  /** After freezing below priority `p`. */
  function Refrozen(g: Game, dis: seq<bool>, s: Standing, p: nat): (t: Standing)
    requires g.Size() == |dis| == |s.distraction| == |s.frozen|
    ensures |t.distraction| == |t.frozen| == g.Size() && t.strategy == s.strategy
    ensures forall v :: 0 <= v < g.Size() ==> (t.frozen[v], t.distraction[v]) == RefrozenAt(g, dis, s, p, v)
  {
    s.(frozen := seq(g.Size(), v requires 0 <= v < g.Size() => RefrozenAt(g, dis, s, p, v).0),
       distraction := seq(g.Size(), v requires 0 <= v < g.Size() => RefrozenAt(g, dis, s, p, v).1))
  }

  /** A pass at `p` that found distractions, and the freeze that follows it. */
  ghost predicate Restart(g: Game, dis: seq<bool>, s: Standing, m: Standing, t: Standing, p: nat, rank: seq<nat>) {
    && Inv(g, dis, s, p) && Fits(g, dis, m) && |rank| == g.Size()
    && Swept(g, dis, s, m, p, rank)
    && t == Refrozen(g, dis, m, p)
  }

  /** The player who profits from a restart at `p`. */
  function Gainer(p: nat): Player { 1 - p % 2 }

  /** How a restart treats one vertex. */
  lemma RestartVertex(g: Game, dis: seq<bool>, s: Standing, m: Standing, t: Standing, p: nat, rank: seq<nat>, v: nat)
    requires Restart(g, dis, s, m, t, p, rank) && v in Dom(dis)
    ensures Now(g, s, v) == Gainer(p) ==> Now(g, t, v) == Gainer(p)
    ensures Flips(s, m, v) ==> g.priority[v] == p && !Held(s, v) && t.frozen[v] == 0 && t.distraction[v]
    ensures Flips(s, m, v) ==> Now(g, s, v) != Gainer(p) && Now(g, t, v) == Gainer(p)
    ensures !Flips(s, m, v) && (g.priority[v] >= p || s.frozen[v] >= p) ==>
      t.frozen[v] == s.frozen[v] && t.distraction[v] == s.distraction[v]
    ensures g.priority[v] < p && s.frozen[v] < p && Now(g, s, v) == Gainer(p) ==>
      t.frozen[v] == p && t.distraction[v] == s.distraction[v]
    ensures g.priority[v] < p && s.frozen[v] < p && Now(g, s, v) != Gainer(p) ==> !Held(t, v)
  {
    assert FrozenBelow(g, s, v);
    if Held(s, v) || g.priority[v] != p { assert Untouched(s, m, v); }
  }

  lemma StrategyKept(g: Game, dis: seq<bool>, s: Standing, m: Standing, t: Standing, p: nat, rank: seq<nat>, v: nat)
    requires Restart(g, dis, s, m, t, p, rank) && v in Dom(dis) && (Held(s, v) || g.priority[v] != p)
    ensures t.strategy[v] == s.strategy[v]
  {
    assert Untouched(s, m, v);
  }

  /** New values match those right after the pass wherever the gainer won. */
  lemma AfterPass(g: Game, dis: seq<bool>, s: Standing, m: Standing, t: Standing, p: nat, rank: seq<nat>, v: nat)
    requires Restart(g, dis, s, m, t, p, rank) && v in Dom(dis) && Now(g, m, v) == Gainer(p)
    ensures Flips(s, m, v) || Now(g, s, v) == Gainer(p)
    ensures Now(g, t, v) == Gainer(p)
  {
    RestartVertex(g, dis, s, m, t, p, rank, v);
    if Held(s, v) || g.priority[v] != p { assert Untouched(s, m, v); }
  }

  /** What holds `v` after the restart: it flipped, it was held out of reach, or it was frozen at `p` just now. */
  lemma HeldAfter(g: Game, dis: seq<bool>, s: Standing, m: Standing, t: Standing, p: nat, rank: seq<nat>, v: nat)
    requires Restart(g, dis, s, m, t, p, rank) && v in Dom(dis) && Held(t, v) && !Flips(s, m, v)
    ensures Now(g, t, v) == Now(g, s, v) && t.strategy[v] == s.strategy[v] && t.distraction[v] == s.distraction[v]
    ensures Held(s, v) || (g.priority[v] < p && Now(g, s, v) == Gainer(p))
    ensures Rests(g, dis, s, v)
    ensures || (Held(s, v) && Level(g, s, v) >= p && Level(g, t, v) == Level(g, s, v))
            || (Now(g, s, v) == Gainer(p) && g.priority[v] < p && t.frozen[v] == p)
  {
    RestartVertex(g, dis, s, m, t, p, rank, v);
    assert Held(s, v) || g.priority[v] < p;
    StrategyKept(g, dis, s, m, t, p, rank, v);
  }

  /** The gainer's values are carried along, with their levels. */
  lemma GainCarried(g: Game, dis: seq<bool>, s: Standing, m: Standing, t: Standing, p: nat, rank: seq<nat>, u: nat)
    requires Restart(g, dis, s, m, t, p, rank) && u in Dom(dis)
    requires Now(g, s, u) == Gainer(p) || Flips(s, m, u)
    ensures Now(g, t, u) == Gainer(p)
    ensures g.priority[u] >= p || t.frozen[u] >= p
    ensures s.frozen[u] >= p ==> t.frozen[u] >= s.frozen[u]
  {
    RestartVertex(g, dis, s, m, t, p, rank, u);
  }

  /** A vertex of the other player held out of reach keeps what it rests on. */
  lemma LossCarried(g: Game, dis: seq<bool>, s: Standing, m: Standing, t: Standing, p: nat, rank: seq<nat>, u: nat, l: nat)
    requires Restart(g, dis, s, m, t, p, rank) && u in Dom(dis)
    requires l > p && (g.priority[u] >= l || s.frozen[u] >= l)
    ensures Now(g, t, u) == Now(g, s, u) && t.frozen[u] == s.frozen[u]
  {
    RestartVertex(g, dis, s, m, t, p, rank, u);
  }

  lemma RestartHeld(g: Game, dis: seq<bool>, s: Standing, m: Standing, t: Standing, p: nat, rank: seq<nat>, v: nat, u: nat)
    requires Restart(g, dis, s, m, t, p, rank) && v in Dom(dis) && Held(t, v) && u in Dom(dis) && Leans(g, t, v, u)
    ensures Now(g, t, u) == Now(g, t, v) && OutOfReach(g, t, v, u)
    ensures !Flips(s, m, v) ==> Leans(g, s, v, u) && Now(g, s, u) == Now(g, s, v)
    ensures !Flips(s, m, v) && Now(g, t, v) == Gainer(p) ==> !Flips(s, m, u)
    ensures Flips(s, m, v) && Flips(s, m, u) ==> rank[u] < rank[v]
  {
    if Flips(s, m, v) {
      FlipHeld(g, dis, s, m, t, p, rank, v, u);
    } else {
      HeldAfter(g, dis, s, m, t, p, rank, v);
      assert Leans(g, s, v, u);
      if Now(g, s, v) == Gainer(p) {
        GainHeld(g, dis, s, m, t, p, rank, v, u);
      } else {
        LossHeld(g, dis, s, m, t, p, rank, v, u);
      }
    }
  }

  lemma FlipHeld(g: Game, dis: seq<bool>, s: Standing, m: Standing, t: Standing, p: nat, rank: seq<nat>, v: nat, u: nat)
    requires Restart(g, dis, s, m, t, p, rank) && v in Dom(dis) && u in Dom(dis) && Leans(g, t, v, u) && Flips(s, m, v)
    ensures Now(g, t, u) == Now(g, t, v) && OutOfReach(g, t, v, u) && (Flips(s, m, u) ==> rank[u] < rank[v])
  {
    assert FlipRests(g, dis, s, m, rank, v);
    RestartVertex(g, dis, s, m, t, p, rank, v);
    assert Leans(g, m, v, u);
    AfterPass(g, dis, s, m, t, p, rank, u);
    GainCarried(g, dis, s, m, t, p, rank, u);
  }

  lemma GainHeld(g: Game, dis: seq<bool>, s: Standing, m: Standing, t: Standing, p: nat, rank: seq<nat>, v: nat, u: nat)
    requires Restart(g, dis, s, m, t, p, rank) && v in Dom(dis) && Held(t, v) && u in Dom(dis)
    requires !Flips(s, m, v) && Leans(g, s, v, u) && Now(g, s, v) == Gainer(p)
    ensures Now(g, s, u) == Now(g, s, v) && Now(g, t, u) == Now(g, t, v) && OutOfReach(g, t, v, u) && !Flips(s, m, u)
  {
    HeldAfter(g, dis, s, m, t, p, rank, v);
    RestartVertex(g, dis, s, m, t, p, rank, u);
    GainCarried(g, dis, s, m, t, p, rank, u);
    if Held(s, v) && Level(g, s, v) >= p && Level(g, t, v) == Level(g, s, v) {
      assert Anchored(g, dis, s, v);
      assert OutOfReach(g, s, v, u);
    }
  }

  lemma LossHeld(g: Game, dis: seq<bool>, s: Standing, m: Standing, t: Standing, p: nat, rank: seq<nat>, v: nat, u: nat)
    requires Restart(g, dis, s, m, t, p, rank) && v in Dom(dis) && Held(t, v) && u in Dom(dis)
    requires !Flips(s, m, v) && Leans(g, s, v, u) && Now(g, s, v) != Gainer(p)
    ensures Now(g, s, u) == Now(g, s, v) && Now(g, t, u) == Now(g, t, v) && OutOfReach(g, t, v, u)
  {
    HeldAfter(g, dis, s, m, t, p, rank, v);
    var l := Level(g, s, v);
    assert FrozenBelow(g, s, v) && Anchored(g, dis, s, v);
    assert Now(g, s, v) == 1 - l % 2;
    assert OutOfReach(g, s, v, u);
    LossCarried(g, dis, s, m, t, p, rank, u, l);
  }

  lemma RestartRests(g: Game, dis: seq<bool>, s: Standing, m: Standing, t: Standing, p: nat, rank: seq<nat>, v: nat)
    requires Restart(g, dis, s, m, t, p, rank) && v in Dom(dis) && Held(t, v)
    ensures Fits(g, dis, t) && Rests(g, dis, t, v) && Anchored(g, dis, t, v)
  {
    hide Inv, Swept, OutOfReach, Now;
    forall u: nat | u < g.Size() && !dis[u] && Leans(g, t, v, u)
      ensures Now(g, t, u) == Now(g, t, v) && OutOfReach(g, t, v, u)
    {
      assert u in Dom(dis);
      RestartHeld(g, dis, s, m, t, p, rank, v, u);
    }
    RestartChosen(g, dis, s, m, t, p, rank, v);
  }

  lemma RestartChosen(g: Game, dis: seq<bool>, s: Standing, m: Standing, t: Standing, p: nat, rank: seq<nat>, v: nat)
    requires Restart(g, dis, s, m, t, p, rank) && v in Dom(dis) && Held(t, v)
    ensures Fits(g, dis, t) && Chosen(g, dis, t, v)
  {
    if Flips(s, m, v) {
      assert FlipRests(g, dis, s, m, rank, v);
      RestartVertex(g, dis, s, m, t, p, rank, v);
    } else {
      HeldAfter(g, dis, s, m, t, p, rank, v);
    }
  }

  lemma RestartFrozen(g: Game, dis: seq<bool>, s: Standing, m: Standing, t: Standing, p: nat, rank: seq<nat>, v: nat)
    requires Restart(g, dis, s, m, t, p, rank) && v in Dom(dis)
    ensures FrozenBelow(g, t, v)
  {
    RestartVertex(g, dis, s, m, t, p, rank, v);
    assert FrozenBelow(g, s, v);
  }

  // ---------------------------------------------------------------------------------------------------------
  // A restart closes no lost walk
  // ---------------------------------------------------------------------------------------------------------

  ghost function FlipSet(g: Game, dis: seq<bool>, s: Standing, m: Standing): set<nat>
    requires |dis| == |s.distraction| == |m.distraction|
  {
    set v | v in Dom(dis) && Flips(s, m, v)
  }

  /** Following a closed walk of new distractions would go back in time forever. */
  lemma {:induction false} NoFlipWalk(w: seq<nat>, rank: seq<nat>, k: nat)
    requires |w| >= 2 && k < |w| && forall i :: 0 <= i < |w| ==> w[i] < |rank|
    requires forall i :: 0 <= i < |w| - 1 ==> rank[w[i + 1]] < rank[w[i]]
    ensures k > 0 ==> rank[w[k]] < rank[w[0]]
  {
    if k > 1 { NoFlipWalk(w, rank, k - 1); }
    if k > 0 { var i := k - 1; assert rank[w[i + 1]] < rank[w[i]]; }
  }

  ghost predicate HeldWalk(g: Game, dis: seq<bool>, s: Standing, m: Standing, t: Standing, p: nat, rank: seq<nat>, w: seq<nat>) {
    && Restart(g, dis, s, m, t, p, rank)
    && Fits(g, dis, t)
    && ClosedWalk(g, HeldSet(g, dis, t), Wins(g, t), t.strategy, w)
  }

  lemma WalkMove(g: Game, dis: seq<bool>, s: Standing, m: Standing, t: Standing, p: nat, rank: seq<nat>, w: seq<nat>, k: nat)
    requires HeldWalk(g, dis, s, m, t, p, rank, w) && k < |w| - 1
    ensures var v, u := w[k], w[k + 1];
      v in Dom(dis) && u in Dom(dis) && Held(t, v) && Held(t, u) && Leans(g, t, v, u)
  {
    assert Move(g, HeldSet(g, dis, t), Wins(g, t), t.strategy, w[k], w[k + 1]);
  }

  lemma WalkHasNoFlip(g: Game, dis: seq<bool>, s: Standing, m: Standing, t: Standing, p: nat, rank: seq<nat>, w: seq<nat>, k: nat)
    requires HeldWalk(g, dis, s, m, t, p, rank, w) && k < |w|
    ensures w[k] in Dom(dis) && !Flips(s, m, w[k])
  {
    assert Fits(g, dis, s) && Fits(g, dis, m);
    hide Inv, Swept, OutOfReach, Now, Refrozen;
    WalkInside(g, HeldSet(g, dis, t), Wins(g, t), t.strategy, w);
    var flips := FlipSet(g, dis, s, m);
    if w[k] in flips {
      // what leads to a new distraction is one
      var calm := Dom(dis) - flips;
      forall i | 0 <= i < |w| - 1 ensures w[i] in calm ==> w[i + 1] in calm {
        WalkMove(g, dis, s, m, t, p, rank, w, i);
        if w[i + 1] in flips { FlipsBehind(g, dis, s, m, t, p, rank, w[i], w[i + 1]); }
      }
      forall i | 0 <= i < |w| ensures w[i] in flips {
        if w[i] in calm { Forward(w, calm, i, k); }
      }
      forall i | 0 <= i < |w| - 1 ensures rank[w[i + 1]] < rank[w[i]] {
        WalkMove(g, dis, s, m, t, p, rank, w, i);
        RestartHeld(g, dis, s, m, t, p, rank, w[i], w[i + 1]);
      }
      NoFlipWalk(w, rank, |w| - 1);
    }
  }

  lemma FlipsBehind(g: Game, dis: seq<bool>, s: Standing, m: Standing, t: Standing, p: nat, rank: seq<nat>, v: nat, u: nat)
    requires Restart(g, dis, s, m, t, p, rank) && v in Dom(dis) && Held(t, v) && u in Dom(dis) && Leans(g, t, v, u)
    requires Flips(s, m, u)
    ensures Flips(s, m, v)
  {
    RestartHeld(g, dis, s, m, t, p, rank, v, u);
    RestartVertex(g, dis, s, m, t, p, rank, u);
  }

  /** Where a held walk ran before the restart. */
  ghost function Before(g: Game, dis: seq<bool>, s: Standing, p: nat): set<nat>
    requires Fits(g, dis, s)
  {
    set v | v in Dom(dis) && (Held(s, v) || g.priority[v] < p)
  }

  lemma BeforeRests(g: Game, dis: seq<bool>, s: Standing, p: nat)
    requires Inv(g, dis, s, p)
    ensures AllRest(g, dis, s, Before(g, dis, s, p))
  {
  }

  lemma WalkBefore(g: Game, dis: seq<bool>, s: Standing, m: Standing, t: Standing, p: nat, rank: seq<nat>, w: seq<nat>)
    requires HeldWalk(g, dis, s, m, t, p, rank, w)
    ensures ClosedWalk(g, Before(g, dis, s, p), Wins(g, s), s.strategy, w)
    ensures forall k :: 0 <= k < |w| ==> w[k] in Dom(dis) && Now(g, t, w[k]) == Now(g, s, w[k])
  {
    assert Fits(g, dis, s);
    hide Inv, Swept, OutOfReach, Now, Refrozen, Rests;
    WalkInside(g, HeldSet(g, dis, t), Wins(g, t), t.strategy, w);
    forall k | 0 <= k < |w|
      ensures w[k] in Before(g, dis, s, p) && Now(g, t, w[k]) == Now(g, s, w[k]) && s.strategy[w[k]] == t.strategy[w[k]]
    {
      WalkHasNoFlip(g, dis, s, m, t, p, rank, w, k);
      HeldAfter(g, dis, s, m, t, p, rank, w[k]);
    }
    forall k | 0 <= k < |w| - 1 ensures Move(g, Before(g, dis, s, p), Wins(g, s), s.strategy, w[k], w[k + 1]) {
      WalkMove(g, dis, s, m, t, p, rank, w, k);
      SameMove(g, dis, s, t, Before(g, dis, s, p), w[k], w[k + 1]);
    }
  }

  lemma RestartCycle(g: Game, dis: seq<bool>, s: Standing, m: Standing, t: Standing, p: nat, rank: seq<nat>, w: seq<nat>)
    requires HeldWalk(g, dis, s, m, t, p, rank, w)
    ensures Won(g, Wins(g, t), w)
  {
    hide Swept, OutOfReach, Now, Refrozen, Rests, Held, FrozenBelow;
    WalkBefore(g, dis, s, m, t, p, rank, w);
    BeforeRests(g, dis, s, p);
    WalkWon(g, dis, s, Before(g, dis, s, p), w);
    assert Wins(g, s)[w[0]] == Wins(g, t)[w[0]];
  }

  /** A restart keeps everything but the stability of the lower blocks. */
  lemma RestartInv(g: Game, dis: seq<bool>, s: Standing, m: Standing, t: Standing, p: nat, rank: seq<nat>)
    requires Restart(g, dis, s, m, t, p, rank)
    ensures Inv(g, dis, t, 0)
  {
    assert Fits(g, dis, t);
    hide Swept, OutOfReach, Now, Refrozen, Rests, Anchored, FrozenBelow, Held, Restart;
    forall v | v in Dom(dis) ensures FrozenBelow(g, t, v) {
      RestartFrozen(g, dis, s, m, t, p, rank, v);
    }
    forall v | v in Dom(dis) && Held(t, v) ensures Rests(g, dis, t, v) && Anchored(g, dis, t, v) {
      RestartRests(g, dis, s, m, t, p, rank, v);
    }
    forall w | ClosedWalk(g, HeldSet(g, dis, t), Wins(g, t), t.strategy, w) ensures Won(g, Wins(g, t), w) {
      RestartCycle(g, dis, s, m, t, p, rank, w);
    }
  }

  // ---------------------------------------------------------------------------------------------------------
  // The end
  // ---------------------------------------------------------------------------------------------------------

  /** What is handed to Oink::solve. */
  ghost function Reported(g: Game, s: Standing): (str: seq<int>)
    requires |s.distraction| == |s.strategy| == |g.owner| == g.Size()
    ensures |str| == g.Size()
    ensures forall v :: 0 <= v < g.Size() ==> str[v] == if Now(g, s, v) == g.owner[v] then s.strategy[v] else -1
  {
    seq(g.Size(), v requires 0 <= v < g.Size() => if Now(g, s, v) == g.owner[v] then s.strategy[v] else -1)
  }

  /** When the blocks of all priorities are stable, the values are a solution. */
  lemma StableSolves(g: Game, dis: seq<bool>, s: Standing, top: nat)
    requires Inv(g, dis, s, top) && forall v: nat :: v in Dom(dis) ==> g.priority[v] < top
    ensures CorrectSolution(g, Dom(dis), Wins(g, s), Reported(g, s))
  {
    var dom := Dom(dis);
    forall u | u in dom ensures Rests(g, dis, s, u) { }
    forall w | ClosedWalk(g, dom, Wins(g, s), Reported(g, s), w) ensures Won(g, Wins(g, s), w) {
      forall k | 0 <= k < |w| - 1 ensures Move(g, dom, Wins(g, s), s.strategy, w[k], w[k + 1]) {
        assert Move(g, dom, Wins(g, s), Reported(g, s), w[k], w[k + 1]);
      }
      WalkWon(g, dis, s, dom, w);
    }
    forall u | u in dom ensures
      if Wins(g, s)[u] == g.owner[u] then
        Reported(g, s)[u] >= 0 && Reported(g, s)[u] in dom && g.Edge(u, Reported(g, s)[u])
        && Wins(g, s)[Reported(g, s)[u]] == Wins(g, s)[u]
      else
        forall v :: v in dom && g.Edge(u, v) ==> Wins(g, s)[v] == Wins(g, s)[u]
    {
      RestsCloses(g, dis, s, u);
    }
  }

  lemma RestsCloses(g: Game, dis: seq<bool>, s: Standing, u: nat)
    requires Fits(g, dis, s) && u in Dom(dis) && Rests(g, dis, s, u)
    ensures if Wins(g, s)[u] == g.owner[u] then
        Reported(g, s)[u] >= 0 && Reported(g, s)[u] in Dom(dis) && g.Edge(u, Reported(g, s)[u])
        && Wins(g, s)[Reported(g, s)[u]] == Wins(g, s)[u]
      else
        forall v :: v in Dom(dis) && g.Edge(u, v) ==> Wins(g, s)[v] == Wins(g, s)[u]
  {
    if Now(g, s, u) == g.owner[u] {
      assert Leans(g, s, u, s.strategy[u]);
    } else {
      forall v | v in Dom(dis) && g.Edge(u, v) ensures Now(g, s, v) == Now(g, s, u) { assert Leans(g, s, u, v); }
    }
  }
}
