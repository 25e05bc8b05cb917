/** The main loop of fixpoint iteration with freezing, as a machine that leaves open in which order a pass evaluates the
    vertices of its block. The sequential and the parallel solver are both instances. */
module FreezingRuns {
  import opened ParityGames
  import opened FixpointJustification
  import opened FreezingFixpoint

  // ---------------------------------------------------------------------------------------------------------
  // One pass
  // ---------------------------------------------------------------------------------------------------------

  ghost predicate PassBy(g: Game, dis: seq<bool>, s: Standing, m: Standing, p: nat, rank: seq<nat>) {
    && Fits(g, dis, s) && Fits(g, dis, m) && |rank| == g.Size()
    && Swept(g, dis, s, m, p, rank)
    && (Quiet(g, dis, s, m) ==> BlockRests(g, dis, m, p))
  }

  /** `m` is a possible outcome of evaluating the block of priority `p`. */
  ghost predicate Pass(g: Game, dis: seq<bool>, s: Standing, m: Standing, p: nat) {
    exists rank :: PassBy(g, dis, s, m, p, rank)
  }

  /** What speaks for making `k` a distraction: moving to `x` if its owner gains by that, or having no other choice. */
  ghost predicate Persuaded(g: Game, dis: seq<bool>, t: Standing, p: nat, k: nat, x: int)
    requires Fits(g, dis, t) && k < g.Size()
  {
    if g.owner[k] == Gainer(p) then
      0 <= x < g.Size() && !dis[x] && g.Edge(k, x) && Now(g, t, x) == Gainer(p)
    else
      forall u: nat :: u < g.Size() && !dis[u] && g.Edge(k, u) ==> Now(g, t, u) == Gainer(p)
  }

  /** `t` with a new strategy and mark for `k`. */
  function Decide(t: Standing, k: nat, x: int, flip: bool): Standing
    requires k < |t.strategy| && k < |t.distraction|
  {
    t.(strategy := t.strategy[k := x], distraction := if flip then t.distraction[k := true] else t.distraction)
  }

  lemma DecidedValue(g: Game, dis: seq<bool>, t: Standing, k: nat, x: int, flip: bool, v: nat)
    requires Fits(g, dis, t) && k < g.Size() && v < g.Size()
    ensures Fits(g, dis, Decide(t, k, x, flip))
    ensures v != k ==> Now(g, Decide(t, k, x, flip), v) == Now(g, t, v) && Decide(t, k, x, flip).strategy[v] == t.strategy[v]
    ensures !flip ==> Now(g, Decide(t, k, x, flip), v) == Now(g, t, v)
  {
  }

  lemma UnheldBefore(g: Game, dis: seq<bool>, s: Standing, t: Standing, p: nat, rank: seq<nat>, v: nat)
    requires Fits(g, dis, s) && Fits(g, dis, t) && |rank| == g.Size() && Swept(g, dis, s, t, p, rank)
    requires v < g.Size() && !Held(t, v)
    ensures !Held(s, v)
  {
    assert Held(s, v) ==> Untouched(s, t, v);
  }

  /** A vertex that turns into a distraction for a good reason leaves the pass in order. */
  lemma SweepFlip(g: Game, dis: seq<bool>, s: Standing, t: Standing, p: nat, rank: seq<nat>, k: nat, x: int)
    requires Fits(g, dis, s) && Fits(g, dis, t) && |rank| == g.Size() && Swept(g, dis, s, t, p, rank)
    requires k in Dom(dis) && g.priority[k] == p && !Held(t, k) && Persuaded(g, dis, t, p, k, x)
    requires forall u: nat :: u in Dom(dis) && Flips(s, t, u) ==> rank[u] < rank[k]
    ensures Fits(g, dis, Decide(t, k, x, true)) && Swept(g, dis, s, Decide(t, k, x, true), p, rank)
  {
    var t' := Decide(t, k, x, true);
    UnheldBefore(g, dis, s, t, p, rank, k);
    forall v: nat | v < g.Size() && (dis[v] || Held(s, v) || g.priority[v] != p) ensures Untouched(s, t', v) {
      assert Untouched(s, t, v);
    }
    forall v: nat | v in Dom(dis) && Flips(s, t', v) ensures FlipRests(g, dis, s, t', rank, v) {
      if v == k {
        FlipRestsNew(g, dis, s, t, p, rank, k, x);
      } else {
        FlipRestsOld(g, dis, s, t, p, rank, k, x, v);
      }
    }
  }

  lemma FlipRestsNew(g: Game, dis: seq<bool>, s: Standing, t: Standing, p: nat, rank: seq<nat>, k: nat, x: int)
    requires Fits(g, dis, s) && Fits(g, dis, t) && |rank| == g.Size() && Swept(g, dis, s, t, p, rank)
    requires k in Dom(dis) && g.priority[k] == p && !Held(t, k) && Persuaded(g, dis, t, p, k, x)
    requires forall u: nat :: u in Dom(dis) && Flips(s, t, u) ==> rank[u] < rank[k]
    ensures Fits(g, dis, Decide(t, k, x, true)) && FlipRests(g, dis, s, Decide(t, k, x, true), rank, k)
  {
    var t' := Decide(t, k, x, true);
    assert Now(g, t', k) == Gainer(p) && Now(g, t, k) != Gainer(p);
    forall u: nat | u < g.Size() && !dis[u] && Leans(g, t', k, u)
      ensures Now(g, t', u) == Gainer(p) && (Flips(s, t', u) ==> rank[u] < rank[k])
    {
      assert Now(g, t, u) == Gainer(p);
      assert u != k;
      DecidedValue(g, dis, t, k, x, true, u);
      assert u in Dom(dis);
    }
  }

  lemma FlipRestsOld(g: Game, dis: seq<bool>, s: Standing, t: Standing, p: nat, rank: seq<nat>, k: nat, x: int, v: nat)
    requires Fits(g, dis, s) && Fits(g, dis, t) && |rank| == g.Size() && Swept(g, dis, s, t, p, rank)
    requires k in Dom(dis) && g.priority[k] == p && !Held(t, k)
    requires v in Dom(dis) && Flips(s, t, v) && v != k
    ensures Fits(g, dis, Decide(t, k, x, true)) && FlipRests(g, dis, s, Decide(t, k, x, true), rank, v)
  {
    var t' := Decide(t, k, x, true);
    assert FlipRests(g, dis, s, t, rank, v);
    assert g.priority[v] != p ==> Untouched(s, t, v);
    DecidedValue(g, dis, t, k, x, true, v);
    forall u: nat | u < g.Size() && !dis[u] && Leans(g, t', v, u)
      ensures Now(g, t', u) == Now(g, t', v) && (Flips(s, t', u) ==> rank[u] < rank[v])
    {
      assert Leans(g, t, v, u);
      assert u != k;
      DecidedValue(g, dis, t, k, x, true, u);
    }
  }

  /** A vertex that keeps its value may change its strategy. */
  lemma SweepStay(g: Game, dis: seq<bool>, s: Standing, t: Standing, p: nat, rank: seq<nat>, k: nat, x: int)
    requires Fits(g, dis, s) && Fits(g, dis, t) && |rank| == g.Size() && Swept(g, dis, s, t, p, rank)
    requires k in Dom(dis) && g.priority[k] == p && !Held(t, k)
    ensures Fits(g, dis, Decide(t, k, x, false)) && Swept(g, dis, s, Decide(t, k, x, false), p, rank)
  {
    var t' := Decide(t, k, x, false);
    UnheldBefore(g, dis, s, t, p, rank, k);
    forall v: nat | v < g.Size() && (dis[v] || Held(s, v) || g.priority[v] != p) ensures Untouched(s, t', v) {
      assert Untouched(s, t, v);
    }
    forall v: nat | v in Dom(dis) && Flips(s, t', v) ensures FlipRests(g, dis, s, t', rank, v) {
      assert FlipRests(g, dis, s, t, rank, v);
      forall u: nat | u < g.Size() && !dis[u] && Leans(g, t', v, u)
        ensures Now(g, t', u) == Now(g, t', v) && (Flips(s, t', u) ==> rank[u] < rank[v])
      {
        assert Leans(g, t, v, u);
      }
    }
  }

  /** A vertex that keeps its value rests as soon as its own choice is right; the others are not disturbed. */
  lemma StayRests(g: Game, dis: seq<bool>, t: Standing, k: nat, x: int, v: nat)
    requires Fits(g, dis, t) && k < g.Size() && v < g.Size() && v != k && Rests(g, dis, t, v)
    ensures Fits(g, dis, Decide(t, k, x, false)) && Rests(g, dis, Decide(t, k, x, false), v)
  {
    var t' := Decide(t, k, x, false);
    forall u: nat | u < g.Size() && !dis[u] && Leans(g, t', v, u) ensures Now(g, t', u) == Now(g, t', v) {
      assert Leans(g, t, v, u);
    }
  }

  lemma SweptSame(g: Game, dis: seq<bool>, s: Standing, p: nat, rank: seq<nat>)
    requires Fits(g, dis, s) && |rank| == g.Size()
    ensures Swept(g, dis, s, s, p, rank) && Quiet(g, dis, s, s)
  {
  }

  // ---------------------------------------------------------------------------------------------------------
  // The loop
  // ---------------------------------------------------------------------------------------------------------

  datatype Config = Config(s: Standing, p: nat)

  /** The highest priority. */
  function Top(g: Game): nat
    requires g.Size() > 0
  {
    g.priority[g.Size() - 1]
  }

  ghost predicate NoBlock(g: Game, p: nat) {
    forall v :: 0 <= v < g.Size() ==> g.priority[v] != p
  }

  ghost predicate After(g: Game, dis: seq<bool>, c: Config, m: Standing, c': Config) {
    && Pass(g, dis, c.s, m, c.p)
    && Fits(g, dis, c.s) && Fits(g, dis, m)
    && c' == if Quiet(g, dis, c.s, m) then Config(m, c.p + 1) else Config(Refrozen(g, dis, m, c.p), 0)
  }

  /** One turn of the main loop. */
  ghost predicate Next(g: Game, dis: seq<bool>, c: Config, c': Config) {
    && Fits(g, dis, c.s) && c.p <= Top(g)
    && (if NoBlock(g, c.p) then c' == c.(p := c.p + 1) else exists m :: After(g, dis, c, m, c'))
  }

  lemma NoBlockInv(g: Game, dis: seq<bool>, s: Standing, p: nat)
    requires Inv(g, dis, s, p) && NoBlock(g, p)
    ensures Inv(g, dis, s, p + 1)
  {
  }

  lemma AfterInv(g: Game, dis: seq<bool>, c: Config, m: Standing, c': Config)
    requires Inv(g, dis, c.s, c.p) && After(g, dis, c, m, c')
    ensures Inv(g, dis, c'.s, c'.p)
  {
    hide Swept, BlockRests, Refrozen, Quiet;
    var rank :| PassBy(g, dis, c.s, m, c.p, rank);
    if Quiet(g, dis, c.s, m) {
      QuietInv(g, dis, c.s, m, c.p, rank);
    } else {
      RestartInv(g, dis, c.s, m, Refrozen(g, dis, m, c.p), c.p, rank);
    }
  }

  lemma NextInv(g: Game, dis: seq<bool>, c: Config, c': Config)
    requires Inv(g, dis, c.s, c.p) && Next(g, dis, c, c')
    ensures Inv(g, dis, c'.s, c'.p)
  {
    hide Inv, After;
    if NoBlock(g, c.p) {
      NoBlockInv(g, dis, c.s, c.p);
    } else {
      var m :| After(g, dis, c, m, c');
      AfterInv(g, dis, c, m, c');
    }
  }

  // ---------------------------------------------------------------------------------------------------------
  // Termination
  // ---------------------------------------------------------------------------------------------------------

  function Pow2(n: nat): (r: nat)
    ensures r > 0
  {
    if n == 0 then 1 else 2 * Pow2(n - 1)
  }

  /** The distractions read as a binary number, the highest vertex first. */
  function Bits(d: seq<bool>): nat {
    if d == [] then 0 else Bits(d[..|d| - 1]) + (if d[|d| - 1] then Pow2(|d| - 1) else 0)
  }

  lemma {:induction false} BitsBound(d: seq<bool>)
    ensures Bits(d) < Pow2(|d|)
  {
    if d != [] { BitsBound(d[..|d| - 1]); }
  }

  /** Gaining a bit outweighs losing any number of lower ones. */
  lemma {:induction false} BitsGrow(a: seq<bool>, b: seq<bool>, k: nat)
    requires |a| == |b| && k < |a| && !a[k] && b[k]
    requires forall j :: k < j < |a| && a[j] ==> b[j]
    ensures Bits(b) > Bits(a)
    decreases |a|
  {
    var n := |a| - 1;
    if k < n {
      BitsGrow(a[..n], b[..n], k);
    } else {
      BitsBound(a[..n]);
    }
  }

  /** The distractions of priority `q`. */
  ghost function DistractionsOf(g: Game, s: Standing, q: nat): set<nat>
    requires |s.distraction| == g.Size()
  {
    set v: nat | v < g.Size() && s.distraction[v] && g.priority[v] == q
  }

  /** A restart at `p` adds distractions of priority `p` and leaves those of higher priority alone. */
  lemma RestartGrows(g: Game, dis: seq<bool>, s: Standing, m: Standing, p: nat, rank: seq<nat>)
    requires Fits(g, dis, s) && Fits(g, dis, m) && |rank| == g.Size()
    requires Swept(g, dis, s, m, p, rank) && !Quiet(g, dis, s, m)
    ensures var t := Refrozen(g, dis, m, p);
      && DistractionsOf(g, s, p) < DistractionsOf(g, t, p)
      && (forall q: nat :: q > p ==> DistractionsOf(g, t, q) == DistractionsOf(g, s, q))
      && Bits(t.distraction) > Bits(s.distraction)
  {
    var t := Refrozen(g, dis, m, p);
    forall v: nat | v < g.Size() && g.priority[v] >= p
      ensures s.distraction[v] ==> t.distraction[v]
      ensures g.priority[v] > p ==> t.distraction[v] == s.distraction[v]
    {
      assert RefrozenAt(g, dis, m, p, v).1 == m.distraction[v];
      if s.distraction[v] || g.priority[v] > p { assert Untouched(s, m, v); }
    }
    var v: nat :| v in Dom(dis) && Flips(s, m, v);
    assert g.priority[v] != p ==> Untouched(s, m, v);
    assert RefrozenAt(g, dis, m, p, v).1 == m.distraction[v];
    assert v in DistractionsOf(g, t, p) && v !in DistractionsOf(g, s, p);
    BitsGrow(s.distraction, t.distraction, v);
  }

  lemma QuietBits(g: Game, dis: seq<bool>, s: Standing, m: Standing, p: nat, rank: seq<nat>)
    requires Fits(g, dis, s) && Fits(g, dis, m) && |rank| == g.Size()
    requires Swept(g, dis, s, m, p, rank) && Quiet(g, dis, s, m)
    ensures m.distraction == s.distraction
  {
    forall v: nat | v < g.Size() ensures m.distraction[v] == s.distraction[v] {
      if dis[v] || Held(s, v) || g.priority[v] != p { assert Untouched(s, m, v); } else { assert !Flips(s, m, v); }
    }
  }

  /** What remains to be done, as one number. */
  function Remaining(g: Game, c: Config): int
    requires g.Size() > 0
  {
    (Pow2(g.Size()) - Bits(c.s.distraction)) * (Top(g) + 2) - c.p
  }

  lemma RemainingPositive(g: Game, c: Config)
    requires g.Size() > 0 && |c.s.distraction| == g.Size() && c.p <= Top(g) + 1
    ensures Remaining(g, c) > 0
  {
    BitsBound(c.s.distraction);
    Scaled(1, Pow2(g.Size()) - Bits(c.s.distraction), Top(g) + 2);
  }

  lemma Scaled(a: nat, b: nat, k: nat)
    requires a <= b
    ensures a * k <= b * k
  {
  }

  /** Every turn of the loop, in whichever order its pass runs, brings the end closer. */
  lemma NextDecreases(g: Game, dis: seq<bool>, c: Config, c': Config)
    requires Next(g, dis, c, c')
    ensures Fits(g, dis, c'.s) && c'.p <= Top(g) + 1 && Remaining(g, c') < Remaining(g, c)
  {
    if !NoBlock(g, c.p) {
      var m :| After(g, dis, c, m, c');
      var rank :| PassBy(g, dis, c.s, m, c.p, rank);
      if Quiet(g, dis, c.s, m) {
        QuietBits(g, dis, c.s, m, c.p, rank);
      } else {
        RestartGrows(g, dis, c.s, m, c.p, rank);
        RestartDecreases(g, c, c');
      }
    }
  }

  lemma RestartDecreases(g: Game, c: Config, c': Config)
    requires g.Size() > 0 && |c'.s.distraction| == g.Size() && Bits(c'.s.distraction) > Bits(c.s.distraction)
    requires c.p <= Top(g) && c'.p == 0
    ensures Remaining(g, c') < Remaining(g, c)
  {
    BitsBound(c'.s.distraction);
    var k := Top(g) + 2;
    var a, b := Pow2(g.Size()) - Bits(c'.s.distraction), Pow2(g.Size()) - Bits(c.s.distraction);
    Scaled(a + 1, b, k);
    assert (a + 1) * k == a * k + k;
  }

  // ---------------------------------------------------------------------------------------------------------
  // Whole runs
  // ---------------------------------------------------------------------------------------------------------

  ghost function Start(g: Game, strategy: seq<int>): Config {
    Config(Standing(AllFalse(g.Size()), Zeros(g.Size()), strategy), 0)
  }

  ghost predicate NextAt(g: Game, dis: seq<bool>, run: seq<Config>, k: nat)
    requires k < |run| - 1
  {
    Next(g, dis, run[k], run[k + 1])
  }

  ghost predicate IsRun(g: Game, dis: seq<bool>, strategy: seq<int>, run: seq<Config>) {
    && Instance(g, dis) && |strategy| == g.Size()
    && |run| > 0 && run[0] == Start(g, strategy)
    && forall k: nat :: k < |run| - 1 ==> NextAt(g, dis, run, k)
  }

  lemma {:induction false} RunInv(g: Game, dis: seq<bool>, strategy: seq<int>, run: seq<Config>, k: nat)
    requires IsRun(g, dis, strategy, run) && k < |run|
    ensures Inv(g, dis, run[k].s, run[k].p)
  {
    hide Inv, Next;
    if k == 0 {
      StartInv(g, dis, strategy);
    } else {
      RunInv(g, dis, strategy, run, k - 1);
      var before := k - 1;
      assert NextAt(g, dis, run, before);
      NextInv(g, dis, run[before], run[k]);
    }
  }

  lemma {:induction false} RunShrinks(g: Game, dis: seq<bool>, strategy: seq<int>, run: seq<Config>, k: nat)
    requires IsRun(g, dis, strategy, run) && k < |run|
    ensures Fits(g, dis, run[k].s) && run[k].p <= Top(g) + 1
    ensures Remaining(g, run[k]) + k <= Remaining(g, run[0])
  {
    hide Next, Remaining;
    if k > 0 {
      RunShrinks(g, dis, strategy, run, k - 1);
      var before := k - 1;
      assert NextAt(g, dis, run, before);
      NextDecreases(g, dis, run[before], run[k]);
    }
  }

  lemma {:induction false} NoBits(n: nat)
    ensures Bits(AllFalse(n)) == 0
  {
    if n > 0 {
      NoBits(n - 1);
      assert AllFalse(n)[..n - 1] == AllFalse(n - 1);
    }
  }

  /** No run is longer than 2^n times the number of priorities (plus one). */
  lemma RunsEnd(g: Game, dis: seq<bool>, strategy: seq<int>, run: seq<Config>)
    requires IsRun(g, dis, strategy, run)
    ensures |run| <= Pow2(g.Size()) * (Top(g) + 2)
  {
    RunShrinks(g, dis, strategy, run, |run| - 1);
    RemainingPositive(g, run[|run| - 1]);
    NoBits(g.Size());
  }

  lemma PriorityBelow(g: Game, v: nat)
    requires g.Sorted() && v < g.Size()
    ensures g.priority[v] <= Top(g)
  {
  }

  /** Every run that leaves the loop reports a correct solution of the enabled subgame. */
  lemma RunSolves(g: Game, dis: seq<bool>, strategy: seq<int>, run: seq<Config>)
    requires IsRun(g, dis, strategy, run) && run[|run| - 1].p > Top(g)
    ensures var s := run[|run| - 1].s;
      Fits(g, dis, s) && CorrectSolution(g, Dom(dis), Wins(g, s), Reported(g, s))
  {
    var c := run[|run| - 1];
    RunInv(g, dis, strategy, run, |run| - 1);
    forall v: nat | v in Dom(dis) ensures g.priority[v] < c.p { PriorityBelow(g, v); }
    StableSolves(g, dis, c.s, c.p);
  }
}
