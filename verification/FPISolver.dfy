/** The sequential solver by fixpoint iteration with freezing (FPISolver::runSeq), from Oink to Oink. */
module FPISolver {
  import opened ParityGames
  import opened Solutions
  import opened OinkFramework
  import opened FixpointJustification
  import opened FreezingFixpoint
  import opened FreezingRuns

  // ---------------------------------------------------------------------------------------------------------
  // Evaluating a block in order
  // ---------------------------------------------------------------------------------------------------------

  function UpdateVertex(g: Game, dis: seq<bool>, s: Standing, v: nat): (t: Standing)
    requires g.Valid() && |dis| == |s.distraction| == |s.frozen| == |s.strategy| == g.Size() && v < g.Size()
    ensures |t.distraction| == |t.frozen| == |t.strategy| == g.Size()
  {
    if dis[v] || Held(s, v) then s
    else
      var to := FirstGood(g, dis, s.distraction, v, 0);
      Decide(s, v, if to != -1 then to else s.strategy[v], OneStep(g, dis, s.distraction, v) != g.Parity(v))
  }

  /** Evaluate the vertices `i`, ..., `i + n - 1` one after the other. */
  function Update(g: Game, dis: seq<bool>, s: Standing, i: nat, n: nat): (t: Standing)
    requires g.Valid() && |dis| == |s.distraction| == |s.frozen| == |s.strategy| == g.Size() && i + n <= g.Size()
    ensures |t.distraction| == |t.frozen| == |t.strategy| == g.Size()
  {
    if n == 0 then s else UpdateVertex(g, dis, Update(g, dis, s, i, n - 1), i + n - 1)
  }

  /** The number of distractions among the first `k` vertices. */
  function Count(d: seq<bool>, k: nat): nat
    requires k <= |d|
  {
    if k == 0 then 0 else Count(d, k - 1) + (if d[k - 1] then 1 else 0)
  }

  ghost predicate InBlock(g: Game, i: nat, n: nat, p: nat) {
    i + n <= g.Size() && forall v :: i <= v < i + n ==> g.priority[v] == p
  }

  function Ranks(n: nat): (r: seq<nat>)
    ensures |r| == n && forall v :: 0 <= v < n ==> r[v] == v
  {
    seq(n, v requires 0 <= v => v)
  }

  /** What holds when the block was evaluated up to `i + n`. */
  ghost predicate Partly(g: Game, dis: seq<bool>, s: Standing, t: Standing, p: nat, i: nat, n: nat) {
    && Fits(g, dis, s) && Fits(g, dis, t)
    && Swept(g, dis, s, t, p, Ranks(g.Size()))
    && (forall v: nat :: v < g.Size() && (v < i || v >= i + n) ==> Untouched(s, t, v))
    && (Quiet(g, dis, s, t) ==>
         forall v: nat :: i <= v < i + n && v < g.Size() && !dis[v] && !Held(t, v) ==> Rests(g, dis, t, v))
  }

  lemma OneStepPersuades(g: Game, dis: seq<bool>, t: Standing, p: nat, k: nat)
    requires Fits(g, dis, t) && k < g.Size() && g.priority[k] == p
    ensures var to := FirstGood(g, dis, t.distraction, k, 0);
      OneStep(g, dis, t.distraction, k) != g.Parity(k) ==> Persuaded(g, dis, t, p, k, if to != -1 then to else t.strategy[k])
  {
    FirstGoodMeaning(g, dis, t.distraction, k, 0);
    if FirstGood(g, dis, t.distraction, k, 0) == -1 {
      forall u: nat | u < g.Size() && !dis[u] && g.Edge(k, u) ensures Now(g, t, u) == 1 - g.owner[k] {
        var j :| 0 <= j < |g.outs[k]| && g.outs[k][j] == u;
      }
    }
  }

  /** A vertex whose one-step rule confirms its parity rests. */
  lemma ConfirmedRests(g: Game, dis: seq<bool>, t: Standing, k: nat)
    requires Fits(g, dis, t) && k < g.Size() && !dis[k] && !Held(t, k)
    requires OneStep(g, dis, t.distraction, k) == g.Parity(k)
    ensures var to := FirstGood(g, dis, t.distraction, k, 0);
      var t' := Decide(t, k, if to != -1 then to else t.strategy[k], false);
      Fits(g, dis, t') && Rests(g, dis, t', k)
  {
    FirstGoodMeaning(g, dis, t.distraction, k, 0);
    var to := FirstGood(g, dis, t.distraction, k, 0);
    var t' := Decide(t, k, if to != -1 then to else t.strategy[k], false);
    forall u: nat | u < g.Size() && !dis[u] && Leans(g, t', k, u) ensures Now(g, t', u) == Now(g, t', k) {
      var j :| 0 <= j < |g.outs[k]| && g.outs[k][j] == u;
    }
  }

  lemma {:induction false} UpdatePartly(g: Game, dis: seq<bool>, s: Standing, p: nat, i: nat, n: nat)
    requires Fits(g, dis, s) && InBlock(g, i, n, p)
    ensures Partly(g, dis, s, Update(g, dis, s, i, n), p, i, n)
    decreases n
  {
    if n == 0 {
      SweptSame(g, dis, s, p, Ranks(g.Size()));
    } else {
      UpdatePartly(g, dis, s, p, i, n - 1);
      PartlyStep(g, dis, s, Update(g, dis, s, i, n - 1), p, i, n);
    }
  }

  lemma PartlyStep(g: Game, dis: seq<bool>, s: Standing, t: Standing, p: nat, i: nat, n: nat)
    requires InBlock(g, i, n, p) && n > 0 && Partly(g, dis, s, t, p, i, n - 1)
    ensures Partly(g, dis, s, UpdateVertex(g, dis, t, i + n - 1), p, i, n)
  {
    var k := i + n - 1;
    assert Untouched(s, t, k);
    if !dis[k] && !Held(t, k) {
      var to := FirstGood(g, dis, t.distraction, k, 0);
      var x := if to != -1 then to else t.strategy[k];
      if OneStep(g, dis, t.distraction, k) != g.Parity(k) {
        OneStepPersuades(g, dis, t, p, k);
        PartlyFlip(g, dis, s, t, p, i, n, x);
      } else {
        PartlyStay(g, dis, s, t, p, i, n);
      }
    }
  }

  lemma PartlyFlip(g: Game, dis: seq<bool>, s: Standing, t: Standing, p: nat, i: nat, n: nat, x: int)
    requires InBlock(g, i, n, p) && n > 0 && Partly(g, dis, s, t, p, i, n - 1)
    requires var k := i + n - 1; !dis[k] && !Held(t, k) && Persuaded(g, dis, t, p, k, x)
    ensures Partly(g, dis, s, Decide(t, i + n - 1, x, true), p, i, n)
  {
    var k := i + n - 1;
    var t' := Decide(t, k, x, true);
    assert Untouched(s, t, k);
    forall u: nat | u in Dom(dis) && Flips(s, t, u) ensures u < k { assert !(u < i || u >= k) || Untouched(s, t, u); }
    SweepFlip(g, dis, s, t, p, Ranks(g.Size()), k, x);
    forall v: nat | v < g.Size() && (v < i || v >= i + n) ensures Untouched(s, t', v) { assert Untouched(s, t, v); }
    assert k in Dom(dis) && Flips(s, t', k);
  }

  lemma PartlyStay(g: Game, dis: seq<bool>, s: Standing, t: Standing, p: nat, i: nat, n: nat)
    requires InBlock(g, i, n, p) && n > 0 && Partly(g, dis, s, t, p, i, n - 1)
    requires var k := i + n - 1; !dis[k] && !Held(t, k) && OneStep(g, dis, t.distraction, k) == g.Parity(k)
    ensures Partly(g, dis, s, UpdateVertex(g, dis, t, i + n - 1), p, i, n)
  {
    var k := i + n - 1;
    var to := FirstGood(g, dis, t.distraction, k, 0);
    var x := if to != -1 then to else t.strategy[k];
    var t' := Decide(t, k, x, false);
    hide FirstGood, OneStep, Rests, Swept;
    SweepStay(g, dis, s, t, p, Ranks(g.Size()), k, x);
    ConfirmedRests(g, dis, t, k);
    forall v: nat | v < g.Size() && (v < i || v >= i + n) ensures Untouched(s, t', v) { assert Untouched(s, t, v); }
    if Quiet(g, dis, s, t') {
      forall v: nat | v in Dom(dis) ensures !Flips(s, t, v) { assert !Flips(s, t', v); }
      forall v: nat | i <= v < i + n && v < g.Size() && !dis[v] && !Held(t', v) ensures Rests(g, dis, t', v) {
        if v != k { StayRests(g, dis, t, k, x, v); }
      }
    }
  }

  /** Evaluating a whole block in order is a pass. */
  lemma UpdateIsPass(g: Game, dis: seq<bool>, s: Standing, p: nat, i: nat, n: nat)
    requires Fits(g, dis, s) && InBlock(g, i, n, p)
    requires forall v: nat :: v < g.Size() && g.priority[v] == p ==> i <= v < i + n
    ensures var m := Update(g, dis, s, i, n); Fits(g, dis, m) && Pass(g, dis, s, m, p)
  {
    var m := Update(g, dis, s, i, n);
    UpdatePartly(g, dis, s, p, i, n);
    assert PassBy(g, dis, s, m, p, Ranks(g.Size()));
  }

  /** The number of new distractions is zero exactly when the pass was quiet. */
  lemma {:induction false} CountGrows(a: seq<bool>, b: seq<bool>, k: nat)
    requires |a| == |b| && k <= |a| && forall v :: 0 <= v < k && a[v] ==> b[v]
    ensures Count(b, k) >= Count(a, k)
    ensures Count(b, k) == Count(a, k) <==> forall v :: 0 <= v < k ==> a[v] == b[v]
    decreases k
  {
    if k > 0 {
      CountGrows(a, b, k - 1);
    }
  }

  lemma {:induction false} UpdateGrows(g: Game, dis: seq<bool>, s: Standing, i: nat, n: nat)
    requires g.Valid() && |dis| == |s.distraction| == |s.frozen| == |s.strategy| == g.Size() && i + n <= g.Size()
    ensures forall v :: 0 <= v < g.Size() && s.distraction[v] ==> Update(g, dis, s, i, n).distraction[v]
    ensures forall v :: 0 <= v < g.Size() && dis[v] ==> Update(g, dis, s, i, n).distraction[v] == s.distraction[v]
    decreases n
  {
    if n > 0 { UpdateGrows(g, dis, s, i, n - 1); }
  }

  lemma {:induction false} CountFlip(d: seq<bool>, v: nat, k: nat)
    requires v < |d| && !d[v] && k <= |d|
    ensures Count(d[v := true], k) == Count(d, k) + if v < k then 1 else 0
    decreases k
  {
    if k > 0 { CountFlip(d, v, k - 1); }
  }

  lemma QuietCount(g: Game, dis: seq<bool>, s: Standing, p: nat, i: nat, n: nat)
    requires Fits(g, dis, s) && InBlock(g, i, n, p)
    ensures var m := Update(g, dis, s, i, n);
      Fits(g, dis, m) && (Quiet(g, dis, s, m) <==> Count(m.distraction, g.Size()) == Count(s.distraction, g.Size()))
  {
    var m := Update(g, dis, s, i, n);
    hide Update;
    UpdateGrows(g, dis, s, i, n);
    CountGrows(s.distraction, m.distraction, g.Size());
    if Quiet(g, dis, s, m) {
      forall v: nat | v < g.Size() ensures s.distraction[v] == m.distraction[v] {
        if !dis[v] { assert v in Dom(dis) && !Flips(s, m, v); }
      }
    }
  }

  lemma RefrozenZero(g: Game, dis: seq<bool>, m: Standing)
    requires Fits(g, dis, m)
    ensures Refrozen(g, dis, m, 0) == m
  {
    var t := Refrozen(g, dis, m, 0);
    assert t.frozen == m.frozen && t.distraction == m.distraction;
  }

  // ---------------------------------------------------------------------------------------------------------
  // The blocks
  // ---------------------------------------------------------------------------------------------------------

  /** `start` and `len` locate the vertices of each priority up to `d`. */
  ghost predicate Located(g: Game, start: seq<int>, len: seq<nat>, d: int) {
    && |start| == |len| && d <= |len|
    && forall p: nat :: p < d ==> Locates(g, start, len, p)
  }

  ghost predicate Locates(g: Game, start: seq<int>, len: seq<nat>, p: nat)
    requires p < |start| == |len|
  {
    if len[p] == 0 then NoBlock(g, p)
    else
      && 0 <= start[p] && start[p] + len[p] <= g.Size()
      && forall v :: 0 <= v < g.Size() ==> (g.priority[v] == p <==> start[p] <= v < start[p] + len[p])
  }

  /** The arrays `p_start` and `p_len`. */
  method LocateBlocks(g: Game) returns (start: array<int>, len: array<nat>)
    requires g.Sorted() && g.Size() > 0
    ensures fresh(start) && fresh(len) && start.Length == Top(g) + 1
    ensures Located(g, start[..], len[..], Top(g) + 1)
  {
    var d := g.priority[g.Size() - 1];
    start, len := new int[d + 1], new nat[d + 1];
    var v := 0;
    for p := 0 to d + 1
      invariant v <= g.Size()
      invariant forall u :: 0 <= u < g.Size() ==> (g.priority[u] < p <==> u < v)
      invariant Located(g, start[..], len[..], p)
    {
      // the priority p is at most d, so there is a vertex left
      assert v < g.Size() by { assert g.priority[g.Size() - 1] == d; }
      ghost var start0, len0 := start[..], len[..];
      if g.priority[v] == p {
        var from := v;
        v := SkipBlock(g, p, v);
        start[p], len[p] := from, v - from;
      } else {
        start[p], len[p] := -1, 0;
      }
      assert Locates(g, start[..], len[..], p);
      forall q: nat | q < p ensures Locates(g, start[..], len[..], q) { assert Locates(g, start0, len0, q); }
    }
  }

  /** What lies before a block has lower priority. */
  lemma BelowBlock(g: Game, start: seq<int>, len: seq<nat>, p: nat)
    requires g.Sorted() && p < |start| == |len| && Locates(g, start, len, p) && len[p] > 0
    ensures 0 <= start[p] < g.Size() && InBlock(g, start[p], len[p], p) && !NoBlock(g, p)
    ensures forall v :: 0 <= v < g.Size() ==> (g.priority[v] < p <==> v < start[p])
  {
    assert g.priority[start[p]] == p;
  }

  method SkipBlock(g: Game, p: nat, from: nat) returns (v: nat)
    requires g.Sorted() && from < g.Size() && g.priority[from] == p
    requires forall u :: 0 <= u < g.Size() ==> (g.priority[u] < p <==> u < from)
    ensures from < v <= g.Size()
    ensures forall u :: 0 <= u < g.Size() ==> (g.priority[u] == p <==> from <= u < v)
    ensures forall u :: 0 <= u < g.Size() ==> (g.priority[u] < p + 1 <==> u < v)
  {
    v := from;
    while v < g.Size() && g.priority[v] == p
      invariant from <= v <= g.Size()
      invariant forall u :: from <= u < v ==> g.priority[u] == p
    {
      v := v + 1;
    }
  }

  // ---------------------------------------------------------------------------------------------------------
  // The solver
  // ---------------------------------------------------------------------------------------------------------

  class FPISolver {
    const oink: Oink
    const game: Game
    const disabled: array<bool>
    const distraction: array<bool>
    const frozen: array<nat>
    const strategy: array<int>
    var iterations: nat

    ghost predicate Valid() {
      && game.Valid() && game.Sorted() && game.Size() > 0
      && disabled.Length == distraction.Length == frozen.Length == strategy.Length == game.Size()
      && disabled != distraction
    }

    ghost function Here(): (s: Standing)
      reads distraction, frozen, strategy
    {
      Standing(distraction[..], frozen[..], strategy[..])
    }

    /** No vertex is a distraction or frozen at first; the strategy array is not initialised. */
    constructor (oink: Oink)
      requires oink.Valid() && oink.game.Sorted() && oink.game.Size() > 0
      ensures Valid() && this.oink == oink && game == oink.game && disabled == oink.disabled
      ensures fresh(distraction) && fresh(frozen) && fresh(strategy)
      ensures Here() == Start(game, strategy[..]).s
    {
      this.oink, game, disabled := oink, oink.game, oink.disabled;
      distraction := new bool[oink.game.Size()](_ => false);
      frozen := new nat[oink.game.Size()](_ => 0);
      strategy := new int[oink.game.Size()];
      iterations := 0;
    }

    method FindGood(v: nat) returns (to: int)
      requires Valid() && v < game.Size()
      ensures to == FirstGood(game, disabled[..], distraction[..], v, 0)
    {
      var k := 0;
      to := -1;
      while k < |game.outs[v]|
        invariant k <= |game.outs[v]| && to == -1
        invariant FirstGood(game, disabled[..], distraction[..], v, k) == FirstGood(game, disabled[..], distraction[..], v, 0)
      {
        var u := game.outs[v][k];
        if !disabled[u] {
          var winner: Player := if distraction[u] then 1 - game.Parity(u) else game.Parity(u);
          if winner == game.owner[v] { return u; }
        }
        k := k + 1;
      }
    }

    /** Evaluate one vertex; `flipped` tells whether it became a distraction. */
    method UpdateOne(v: nat) returns (flipped: bool)
      requires Valid() && v < game.Size()
      modifies distraction, strategy
      ensures Here() == UpdateVertex(game, disabled[..], old(Here()), v)
      ensures Count(distraction[..], game.Size()) == old(Count(distraction[..], game.Size())) + if flipped then 1 else 0
    {
      hide FirstGood;
      flipped := false;
      if disabled[v] || frozen[v] > 0 || distraction[v] { return; }
      var to := FindGood(v);
      var winner := if to != -1 then game.owner[v] else 1 - game.owner[v];
      if to != -1 { strategy[v] := to; }
      if game.Parity(v) != winner {
        CountFlip(distraction[..], v, game.Size());
        distraction[v] := true;
        flipped := true;
      }
    }

    method UpdateBlock(i: nat, n: nat) returns (res: nat)
      requires Valid() && i + n <= game.Size()
      modifies distraction, strategy
      ensures Here() == Update(game, disabled[..], old(Here()), i, n)
      ensures Count(distraction[..], game.Size()) == old(Count(distraction[..], game.Size())) + res
    {
      hide UpdateVertex, Count;
      res := 0;
      for k := 0 to n
        invariant Here() == Update(game, disabled[..], old(Here()), i, k)
        invariant Count(distraction[..], game.Size()) == old(Count(distraction[..], game.Size())) + res
      {
        var flipped := UpdateOne(i + k);
        if flipped { res := res + 1; }
      }
    }

    /** What a freeze at `p` makes of the vertices in a range. */
    twostate predicate Refroze(i: nat, n: nat, p: nat)
      requires Valid()
      reads distraction, frozen
    {
      forall v :: 0 <= v < game.Size() ==>
        if i <= v < i + n && !old(disabled[v]) then
          (frozen[v], distraction[v]) == Refreeze(game.Parity(v), old(frozen[v]), old(distraction[v]), p)
        else
          frozen[v] == old(frozen[v]) && distraction[v] == old(distraction[v])
    }

    method FreezeOne(v: nat, p: nat)
      requires Valid() && v < game.Size() && p > 0
      modifies distraction, frozen
      ensures Refroze(v, 1, p)
    {
      var pl := p % 2;
      if disabled[v] { return; }
      if frozen[v] >= p { return; }
      if frozen[v] > 0 {
        if frozen[v] % 2 == pl {
          frozen[v] := p;
        } else {
          frozen[v] := 0;
          distraction[v] := false;
        }
      } else if distraction[v] {
        if game.Parity(v) == pl {
          frozen[v] := p;
        } else {
          distraction[v] := false;
        }
      } else if game.Parity(v) != pl {
        frozen[v] := p;
      }
    }

    method FreezeThawReset(i: nat, n: nat, p: nat)
      requires Valid() && i + n <= game.Size() && p > 0
      modifies distraction, frozen
      ensures Refroze(i, n, p)
    {
      for k := 0 to n
        invariant Refroze(i, k, p)
      {
        FreezeOne(i + k, p);
      }
    }

    /** Freezing all that lies below the block of priority `p` is the freeze of the model. */
    method Freeze(i: nat, p: nat)
      requires Valid() && i <= game.Size() && p > 0
      requires forall v :: 0 <= v < game.Size() ==> (game.priority[v] < p <==> v < i)
      modifies distraction, frozen
      ensures Here() == Refrozen(game, disabled[..], old(Here()), p)
    {
      ghost var s := Here();
      FreezeThawReset(0, i, p);
      forall v | 0 <= v < game.Size() ensures (frozen[v], distraction[v]) == RefrozenAt(game, disabled[..], s, p, v) {
        assert s.frozen[v] == old(frozen[v]) && s.distraction[v] == old(distraction[v]) && disabled[..][v] == old(disabled[v]);
      }
      assert frozen[..] == Refrozen(game, disabled[..], s, p).frozen;
      assert distraction[..] == Refrozen(game, disabled[..], s, p).distraction;
    }

    /** One turn of the main loop at priority `p`. */
    method Turn(p: nat, start: array<int>, len: array<nat>) returns (p': nat)
      requires Valid() && p <= Top(game) && len != frozen && start != strategy
      requires Located(game, start[..], len[..], Top(game) + 1)
      modifies distraction, frozen, strategy, this`iterations
      ensures start[..] == old(start[..]) && len[..] == old(len[..])
      ensures Next(game, disabled[..], Config(old(Here()), p), Config(Here(), p'))
    {
      hide Update, Swept, Quiet, Refrozen, Pass, Count, CorrectSolution;
      ghost var s, dis := Here(), disabled[..];
      assert Locates(game, start[..], len[..], p);
      assert len[..][p] == len[p] && start[..][p] == start[p];
      assert Fits(game, dis, s);
      if len[p] == 0 { return p + 1; }
      BelowBlock(game, start[..], len[..], p);
      UpdateIsPass(game, dis, s, p, start[p], len[p]);
      var res := UpdateBlock(start[p], len[p]);
      ghost var m := Here();
      QuietCount(game, dis, s, p, start[p], len[p]);
      if res == 0 {
        p' := p + 1;
      } else {
        RefrozenZero(game, dis, m);
        if p != 0 { Freeze(start[p], p); }
        p' := 0;
        iterations := iterations + 1;
      }
      assert After(game, dis, Config(s, p), m, Config(Here(), p'));
    }

    /** The main loop: it ends, and leaves a correct solution of the enabled subgame. */
    method Loop(start: array<int>, len: array<nat>)
      requires Valid() && Here() == Start(game, strategy[..]).s
      requires len != frozen && start != strategy && start.Length == Top(game) + 1
      requires Located(game, start[..], len[..], Top(game) + 1)
      modifies distraction, frozen, strategy, this`iterations
      ensures Fits(game, disabled[..], Here())
      ensures CorrectSolution(game, Dom(disabled[..]), Wins(game, Here()), Reported(game, Here()))
    {
      hide Inv, Next, CorrectSolution, Remaining, Located, Wins, Reported, Bits;
      ghost var dis := disabled[..];
      StartInv(game, dis, strategy[..]);
      iterations := 1;
      var p: nat := 0;
      while p < start.Length
        invariant p <= start.Length
        invariant disabled[..] == dis && Located(game, start[..], len[..], Top(game) + 1)
        invariant Inv(game, dis, Here(), p)
        decreases Remaining(game, Config(Here(), p))
      {
        ghost var c := Config(Here(), p);
        p := Turn(p, start, len);
        NextInv(game, dis, c, Config(Here(), p));
        NextDecreases(game, dis, c, Config(Here(), p));
        RemainingPositive(game, Config(Here(), p));
      }
      forall v: nat | v in Dom(dis) ensures game.priority[v] < p { PriorityBelow(game, v); }
      StableSolves(game, dis, Here(), p);
    }
  }

  /** Hand the result to Oink::solve. */
  method Report(solver: FPISolver)
    requires solver.Valid() && solver.oink.Valid() && solver.oink.Todo() == [] && solver.game == solver.oink.game
    requires solver.strategy != solver.oink.strategy && solver.strategy != solver.oink.outcount
    requires solver.distraction != solver.oink.solved && solver.distraction != solver.oink.disabled
    modifies solver.oink`pointer, solver.oink.solved, solver.oink.winner, solver.oink.strategy, solver.oink.disabled, solver.oink.todo
    ensures var oink := solver.oink;
      && oink.Valid() && oink.Solved() == Vertices(oink.game)
      && oink.winner[..] == Merge(old(oink.Solved()), old(oink.winner[..]), Wins(oink.game, solver.Here()))
      && oink.strategy[..] == Merge(old(oink.Solved()), old(oink.strategy[..]), Reported(oink.game, solver.Here()))
  {
    var oink, g := solver.oink, solver.game;
    ghost var s := solver.Here();
    for v := 0 to g.Size()
      invariant oink.Valid() && solver.distraction[..] == s.distraction && solver.strategy[..] == s.strategy
      invariant forall u :: 0 <= u < g.Size() ==> oink.solved[u] == (old(oink.solved[u]) || u < v)
      invariant forall u :: 0 <= u < g.Size() ==>
        oink.winner[u] == (if !old(oink.solved[u]) && u < v then Wins(g, s)[u] else old(oink.winner[u]))
      invariant forall u :: 0 <= u < g.Size() ==>
        oink.strategy[u] == (if !old(oink.solved[u]) && u < v then Reported(g, s)[u] else old(oink.strategy[u]))
    {
      assert oink.disabled[..][v] == oink.solved[..][v];
      if !oink.disabled[v] {
        var winner: Player := if solver.distraction[v] then 1 - g.Parity(v) else g.Parity(v);
        oink.Solve(v, winner, if winner == g.owner[v] then solver.strategy[v] else -1);
      }
    }
  }

  /** The sequential solver is totally correct on every input: it ends and solves what was unsolved. */
  method RunSeq(oink: Oink) returns (ghost final: Standing)
    requires oink.Valid() && oink.Todo() == [] && oink.game.Sorted() && oink.game.Size() > 0
    modifies oink`pointer, oink.solved, oink.winner, oink.strategy, oink.disabled, oink.todo
    ensures Fits(oink.game, old(oink.solved[..]), final)
    ensures CorrectSolution(oink.game, Dom(old(oink.solved[..])), Wins(oink.game, final), Reported(oink.game, final))
    ensures oink.Valid() && oink.Solved() == Vertices(oink.game)
    ensures oink.winner[..] == Merge(old(oink.Solved()), old(oink.winner[..]), Wins(oink.game, final))
    ensures oink.strategy[..] == Merge(old(oink.Solved()), old(oink.strategy[..]), Reported(oink.game, final))
  {
    hide CorrectSolution, Merge;
    ghost var dis := oink.disabled[..];
    assert dis == oink.solved[..];
    var solver := new FPISolver(oink);
    var start, len := LocateBlocks(oink.game);
    solver.Loop(start, len);
    final := solver.Here();
    Report(solver);
  }

  /** Oink::run with the self-loop preprocessor and this solver: a correct solution of the whole game. */
  method SolveGame(oink: Oink)
    requires oink.Valid() && oink.Sound() && oink.Todo() == [] && oink.Counted(oink.Solved())
    requires oink.game.Sorted()
    modifies oink`pointer, oink.solved, oink.winner, oink.strategy, oink.disabled, oink.todo, oink.outcount
    ensures oink.Valid() && oink.Todo() == [] && oink.Solved() == Vertices(oink.game)
    ensures Shape(oink.game, Vertices(oink.game), oink.winner[..], oink.strategy[..])
    ensures CorrectSolution(oink.game, Vertices(oink.game), oink.winner[..], oink.strategy[..])
    ensures oink.Kept(old(oink.solved[..]), old(oink.winner[..]), old(oink.strategy[..]))
  {
    hide Game.Valid, PartialSolution, AttractorClosed, CorrectSolution, Merge, Oink.Counted;
    var g := oink.game;
    ghost var solved0, winner0, strategy0 := oink.solved[..], oink.winner[..], oink.strategy[..];
    var _ := oink.SolveSelfloops();
    Checked(oink);
    ghost var dis, win, str := oink.solved[..], oink.winner[..], oink.strategy[..];
    var solved := GameSolved(oink);
    if solved { return; }
    ghost var final := RunSeq(oink);
    // trash the todo buffer
    oink.pointer := 0;
    assert Dom(dis) == Vertices(g) - SetOf(dis);
    Combine(g, SetOf(dis), win, str, Wins(g, final), Reported(g, final));
    MergedKept(oink, solved0, winner0, strategy0, dis, win, str, final);
  }

  /** What the solver adds has a strategy only where its owner wins. */
  lemma MergedKept(oink: Oink, solved0: seq<bool>, winner0: seq<Player>, strategy0: seq<int>,
                   solved1: seq<bool>, winner1: seq<Player>, strategy1: seq<int>, final: Standing)
    requires oink.Valid() && Fits(oink.game, solved1, final) && oink.Solved() == Vertices(oink.game)
    requires |solved0| == |winner0| == |strategy0| == |solved1| == |winner1| == |strategy1| == oink.game.Size()
    requires oink.winner[..] == Merge(SetOf(solved1), winner1, Wins(oink.game, final))
    requires oink.strategy[..] == Merge(SetOf(solved1), strategy1, Reported(oink.game, final))
    requires forall v :: 0 <= v < oink.game.Size() ==>
      if solved0[v] then solved1[v] && winner1[v] == winner0[v] && strategy1[v] == strategy0[v]
      else solved1[v] && winner1[v] != oink.game.owner[v] ==> strategy1[v] == -1
    ensures oink.Kept(solved0, winner0, strategy0)
  {
    forall v | 0 <= v < oink.game.Size() ensures oink.solved[v] { assert v in Vertices(oink.game); }
  }

  /** The whole of it, from a game of which nothing is solved: a correct solution. */
  method SolveNew(g: Game) returns (winner: seq<Player>, strategy: seq<int>)
    requires g.Valid() && g.Sorted() && NoDeadEnds(g, Vertices(g))
    ensures Shape(g, Vertices(g), winner, strategy) && CorrectSolution(g, Vertices(g), winner, strategy)
  {
    hide NoDeadEnds, Game.Valid, Oink.Sound, Oink.Counted, CorrectSolution;
    var oink := NewOink(g);
    SolveGame(oink);
    winner, strategy := oink.winner[..], oink.strategy[..];
  }
}
