/** The parallel solver by fixpoint iteration with freezing (FPISolver::runPar): the splitting of ranges into leaves, and
    passes in which the vertices of a block are evaluated concurrently and without synchronisation. */
module FPIParallel {
  import opened ParityGames
  import opened FixpointJustification
  import opened FreezingFixpoint
  import opened FreezingRuns

  // ---------------------------------------------------------------------------------------------------------
  // Splitting
  // ---------------------------------------------------------------------------------------------------------

  datatype Leaf = Leaf(i: nat, n: nat)

  predicate In(leaf: Leaf, v: nat) { leaf.i <= v < leaf.i + leaf.n }

  /** Where update_block_rec and freeze_thaw_reset_rec cut off the first part of a long range. */
  function Cut(i: nat, n: nat): (k: nat)
    requires n > 128
    ensures 0 < k < n && (i + k) % 64 == 0
  {
    if i % 128 != 0 then 128 - i % 128 else n / 128 * 64
  }

  /** The ranges that are processed without further splitting, in order. */
  function Leaves(i: nat, n: nat): seq<Leaf>
    decreases n
  {
    if n <= 128 then [Leaf(i, n)]
    else
      var k := Cut(i, n);
      (if i % 128 != 0 then [Leaf(i, k)] else Leaves(i, k)) + Leaves(i + k, n - k)
  }

  /** The leaves follow one another without gap or overlap, cut only between 64-bit words. */
  ghost predicate Tiles(leaves: seq<Leaf>, i: nat, n: nat) {
    && |leaves| > 0 && leaves[0].i == i
    && leaves[|leaves| - 1].i + leaves[|leaves| - 1].n == i + n
    && forall k: nat :: k < |leaves| - 1 ==> Adjacent(leaves, k)
  }

  ghost predicate Adjacent(leaves: seq<Leaf>, k: nat)
    requires k < |leaves| - 1
  {
    leaves[k + 1].i == leaves[k].i + leaves[k].n && leaves[k + 1].i % 64 == 0
  }

  lemma {:induction false} LeavesTile(i: nat, n: nat)
    ensures Tiles(Leaves(i, n), i, n)
    decreases n
  {
    if n > 128 {
      var k := Cut(i, n);
      var first := if i % 128 != 0 then [Leaf(i, k)] else Leaves(i, k);
      if i % 128 == 0 { LeavesTile(i, k); }
      LeavesTile(i + k, n - k);
      var rest := Leaves(i + k, n - k);
      var all := Leaves(i, n);
      assert all == first + rest;
      forall j: nat | j < |all| - 1 ensures Adjacent(all, j) {
        if j < |first| - 1 {
          assert Adjacent(first, j);
        } else if j >= |first| {
          assert Adjacent(rest, j - |first|);
        }
      }
    }
  }

  /** Later leaves start where earlier ones have ended, at or after a word boundary. */
  lemma {:induction false} LeavesOrdered(leaves: seq<Leaf>, i: nat, n: nat, a: nat, b: nat)
    requires Tiles(leaves, i, n) && a < b < |leaves|
    ensures leaves[a].i + leaves[a].n <= leaves[a + 1].i <= leaves[b].i && leaves[a + 1].i % 64 == 0
    decreases b - a
  {
    assert Adjacent(leaves, a);
    if a + 1 < b { LeavesOrdered(leaves, i, n, a + 1, b); assert Adjacent(leaves, a + 1); }
  }

  lemma {:induction false} FindLeaf(leaves: seq<Leaf>, i: nat, n: nat, v: nat, k: nat) returns (a: nat)
    requires Tiles(leaves, i, n) && k < |leaves| && leaves[k].i <= v < i + n
    ensures a < |leaves| && In(leaves[a], v)
    decreases |leaves| - k
  {
    if v < leaves[k].i + leaves[k].n {
      a := k;
    } else {
      assert k < |leaves| - 1 ==> Adjacent(leaves, k);
      a := FindLeaf(leaves, i, n, v, k + 1);
    }
  }

  /** Every index of the range is in exactly one leaf, and no leaf leaves the range. */
  lemma LeavesCover(i: nat, n: nat, v: nat)
    ensures (exists a :: 0 <= a < |Leaves(i, n)| && In(Leaves(i, n)[a], v)) <==> i <= v < i + n
    ensures forall a, b :: 0 <= a < |Leaves(i, n)| && 0 <= b < |Leaves(i, n)| && In(Leaves(i, n)[a], v) && In(Leaves(i, n)[b], v) ==> a == b
  {
    var leaves := Leaves(i, n);
    LeavesTile(i, n);
    if i <= v < i + n {
      var a := FindLeaf(leaves, i, n, v, 0);
    }
    forall a | 0 <= a < |leaves| && In(leaves[a], v) ensures i <= v < i + n {
      if a > 0 { LeavesOrdered(leaves, i, n, 0, a); }
      if a < |leaves| - 1 { LeavesOrdered(leaves, i, n, a, |leaves| - 1); }
    }
    forall a, b | 0 <= a < |leaves| && 0 <= b < |leaves| && In(leaves[a], v) && In(leaves[b], v) ensures a == b {
      if a < b { LeavesOrdered(leaves, i, n, a, b); } else if b < a { LeavesOrdered(leaves, i, n, b, a); }
    }
  }

  /** Different leaves never touch the same 64-bit word of a bitset. */
  lemma LeavesApart(i: nat, n: nat, a: nat, b: nat, v: nat, w: nat)
    requires a < |Leaves(i, n)| && b < |Leaves(i, n)| && a != b
    requires In(Leaves(i, n)[a], v) && In(Leaves(i, n)[b], w)
    ensures v / 64 != w / 64
  {
    hide Leaves;
    LeavesTile(i, n);
    if a < b {
      LeavesOrdered(Leaves(i, n), i, n, a, b);
      WordsApart(v, w, Leaves(i, n)[a + 1].i);
    } else {
      LeavesOrdered(Leaves(i, n), i, n, b, a);
      WordsApart(w, v, Leaves(i, n)[b + 1].i);
    }
  }

  lemma WordsApart(v: nat, w: nat, cut: nat)
    requires v < cut <= w && cut % 64 == 0
    ensures v / 64 != w / 64
  {
  }

  // ---------------------------------------------------------------------------------------------------------
  // Freezing in parallel
  // ---------------------------------------------------------------------------------------------------------

  /** The effect of freezing the vertices of `area` at `p`; a vertex looks only at itself. */
  function FrozenIn(g: Game, dis: seq<bool>, s: Standing, p: nat, area: set<nat>): (t: Standing)
    requires g.Size() == |dis| == |s.distraction| == |s.frozen|
    ensures |t.distraction| == |t.frozen| == g.Size() && t.strategy == s.strategy
  {
    s.(frozen := seq(g.Size(), v requires 0 <= v < g.Size() => if v in area then RefrozenAt(g, dis, s, p, v).0 else s.frozen[v]),
       distraction := seq(g.Size(), v requires 0 <= v < g.Size() => if v in area then RefrozenAt(g, dis, s, p, v).1 else s.distraction[v]))
  }

  /** The vertices in any order: one at a time, each once. */
  function FreezeAll(g: Game, dis: seq<bool>, s: Standing, p: nat, order: seq<nat>): (t: Standing)
    requires g.Size() == |dis| == |s.distraction| == |s.frozen|
    ensures |t.distraction| == |t.frozen| == g.Size() && t.strategy == s.strategy
  {
    if order == [] then s else FrozenIn(g, dis, FreezeAll(g, dis, s, p, order[..|order| - 1]), p, {order[|order| - 1]})
  }

  lemma {:induction false} FreezeAllMeaning(g: Game, dis: seq<bool>, s: Standing, p: nat, order: seq<nat>)
    requires g.Size() == |dis| == |s.distraction| == |s.frozen|
    requires forall j, k :: 0 <= j < k < |order| ==> order[j] != order[k]
    ensures FreezeAll(g, dis, s, p, order) == FrozenIn(g, dis, s, p, set v | v in order)
  {
    if order != [] {
      var n := |order| - 1;
      var front := order[..n];
      FreezeAllMeaning(g, dis, s, p, front);
      var m, t := FreezeAll(g, dis, s, p, front), FreezeAll(g, dis, s, p, order);
      var r := FrozenIn(g, dis, s, p, set v | v in order);
      assert order[n] !in front;
      forall v | 0 <= v < g.Size() ensures t.frozen[v] == r.frozen[v] && t.distraction[v] == r.distraction[v] {
        assert v in order <==> v in front || v == order[n];
      }
      assert t.frozen == r.frozen && t.distraction == r.distraction;
    } else {
      var r := FrozenIn(g, dis, s, p, set v | v in order);
      assert s.frozen == r.frozen && s.distraction == r.distraction;
    }
  }

  /** However the leaves below the block are scheduled and interleaved, the freeze comes out the same. */
  lemma ParallelFreeze(g: Game, dis: seq<bool>, s: Standing, p: nat, i: nat, order: seq<nat>)
    requires Fits(g, dis, s) && i <= g.Size() && forall v :: 0 <= v < g.Size() ==> (g.priority[v] < p <==> v < i)
    requires forall j, k :: 0 <= j < k < |order| ==> order[j] != order[k]
    requires forall v: nat :: v in order <==> exists a :: 0 <= a < |Leaves(0, i)| && In(Leaves(0, i)[a], v)
    ensures FreezeAll(g, dis, s, p, order) == Refrozen(g, dis, s, p)
  {
    hide Leaves;
    FreezeAllMeaning(g, dis, s, p, order);
    var r, t := FrozenIn(g, dis, s, p, set v | v in order), Refrozen(g, dis, s, p);
    forall v: nat | v < g.Size() ensures r.frozen[v] == t.frozen[v] && r.distraction[v] == t.distraction[v] {
      LeavesCover(0, i, v);
    }
    assert r.frozen == t.frozen && r.distraction == t.distraction;
  }

  // ---------------------------------------------------------------------------------------------------------
  // Evaluating a block concurrently
  // ---------------------------------------------------------------------------------------------------------

  /** How far the evaluation of a vertex has come: not begun, about to read its `k`-th successor, about to write the
      mark its one-step winner asks for, or over. */
  datatype Phase = Waiting | Reading(k: nat) | Decided(winner: Player) | Over

  /** The shared arrays and the phase of each vertex. `rank` and `clock` record in which order marks were written;
      no step depends on them. */
  datatype Evaluation = Evaluation(t: Standing, phase: seq<Phase>, rank: seq<nat>, clock: nat)

  ghost predicate Shaped(g: Game, dis: seq<bool>, x: Evaluation) {
    Fits(g, dis, x.t) && |x.phase| == |x.rank| == g.Size()
  }

  function Moved(x: Evaluation, v: nat, phase: Phase): Evaluation
    requires v < |x.phase|
  {
    x.(phase := x.phase[v := phase])
  }

  /** Read one successor, seeing the marks as they are at that moment. */
  ghost function ReadNext(g: Game, dis: seq<bool>, x: Evaluation, v: nat): Evaluation
    requires Shaped(g, dis, x) && v < g.Size() && x.phase[v].Reading?
  {
    var k := x.phase[v].k;
    if k >= |g.outs[v]| then Moved(x, v, Decided(1 - g.owner[v]))
    else
      var to := g.outs[v][k];
      if !dis[to] && Now(g, x.t, to) == g.owner[v] then
        Moved(x.(t := Decide(x.t, v, to, false)), v, Decided(g.owner[v]))
      else Moved(x, v, Reading(k + 1))
  }

  function Write(g: Game, x: Evaluation, v: nat): Evaluation
    requires v < g.Size() == |x.phase| == |x.rank| == |x.t.distraction| == |x.t.strategy| && x.phase[v].Decided?
  {
    if x.phase[v].winner == g.Parity(v) then Moved(x, v, Over)
    else Moved(x, v, Over).(t := Decide(x.t, v, x.t.strategy[v], true), rank := x.rank[v := x.clock], clock := x.clock + 1)
  }

  /** One atomic step of the task that evaluates `v`. */
  ghost function StepOf(g: Game, dis: seq<bool>, x: Evaluation, v: nat): Evaluation
    requires Shaped(g, dis, x) && v < g.Size()
  {
    match x.phase[v]
    case Waiting => Moved(x, v, if dis[v] || Held(x.t, v) then Over else Reading(0))
    case Reading(_) => ReadNext(g, dis, x, v)
    case Decided(_) => Write(g, x, v)
    case Over => x
  }

  // What is known about the vertices of the block, relative to the marks `s` at the beginning of the pass. A mark set
  // meanwhile favours the gainer, so what spoke for the gainer still does; what spoke against may be out of date, but
  // then the pass has found a distraction and the block is evaluated again.

  ghost predicate ReadSoFar(g: Game, dis: seq<bool>, s: Standing, t: Standing, p: nat, v: nat, k: nat)
    requires Fits(g, dis, s) && Fits(g, dis, t) && v < g.Size()
  {
    && k <= |g.outs[v]|
    && (g.owner[v] != Gainer(p) || Quiet(g, dis, s, t) ==>
         forall j :: 0 <= j < k && !dis[g.outs[v][j]] ==> Now(g, t, g.outs[v][j]) == 1 - g.owner[v])
  }

  ghost predicate Known(g: Game, dis: seq<bool>, s: Standing, x: Evaluation, p: nat, v: nat)
    requires Fits(g, dis, s) && Shaped(g, dis, x) && v < g.Size()
  {
    match x.phase[v]
    case Waiting => !Flips(s, x.t, v)
    case Reading(k) => !dis[v] && !Held(x.t, v) && ReadSoFar(g, dis, s, x.t, p, v, k)
    case Decided(winner) =>
      && !dis[v] && !Held(x.t, v)
      && (if winner == Gainer(p) then Persuaded(g, dis, x.t, p, v, x.t.strategy[v])
          else Quiet(g, dis, s, x.t) ==> Rests(g, dis, x.t, v))
    case Over => !dis[v] && !Held(x.t, v) && Quiet(g, dis, s, x.t) ==> Rests(g, dis, x.t, v)
  }

  ghost predicate MarksOrdered(g: Game, dis: seq<bool>, s: Standing, x: Evaluation)
    requires Fits(g, dis, s) && Shaped(g, dis, x)
  {
    forall u: nat :: u in Dom(dis) && Flips(s, x.t, u) ==> x.rank[u] < x.clock
  }

  ghost predicate EvaluationInv(g: Game, dis: seq<bool>, s: Standing, x: Evaluation, p: nat) {
    && Fits(g, dis, s) && Shaped(g, dis, x)
    && Swept(g, dis, s, x.t, p, x.rank)
    && MarksOrdered(g, dis, s, x)
    && forall v: nat :: v < g.Size() && g.priority[v] == p ==> Known(g, dis, s, x, p, v)
  }

  ghost predicate Begun(g: Game, s: Standing, x: Evaluation) {
    x.t == s && |x.phase| == |x.rank| == g.Size() && forall v :: 0 <= v < g.Size() ==> x.phase[v] == Waiting
  }

  lemma BegunInv(g: Game, dis: seq<bool>, s: Standing, x: Evaluation, p: nat)
    requires Fits(g, dis, s) && Begun(g, s, x)
    ensures EvaluationInv(g, dis, s, x, p)
  {
    SweptSame(g, dis, s, p, x.rank);
  }

  /** Neither the phase nor the strategy of `v` matters to what is known about `u`. */
  lemma KnownAfterStay(g: Game, dis: seq<bool>, s: Standing, x: Evaluation, p: nat, v: nat, str: int, phase: Phase, u: nat)
    requires Fits(g, dis, s) && Shaped(g, dis, x) && v < g.Size() && u < g.Size() && u != v && Known(g, dis, s, x, p, u)
    ensures var y := Moved(x.(t := Decide(x.t, v, str, false)), v, phase);
      Shaped(g, dis, y) && Known(g, dis, s, y, p, u) && (Quiet(g, dis, s, y.t) <==> Quiet(g, dis, s, x.t))
  {
    var y := Moved(x.(t := Decide(x.t, v, str, false)), v, phase);
    assert y.t.distraction == x.t.distraction && y.phase[u] == x.phase[u];
    if Rests(g, dis, x.t, u) { StayRests(g, dis, x.t, v, str, u); }
  }

  /** A new mark on `v` does not weaken what spoke for the gainer at `u`. */
  lemma KnownAfterMark(g: Game, dis: seq<bool>, s: Standing, x: Evaluation, p: nat, v: nat, u: nat)
    requires EvaluationInv(g, dis, s, x, p) && v < g.Size() && g.priority[v] == p && !dis[v] && !Held(x.t, v)
    requires x.phase[v] == Decided(Gainer(p)) && u < g.Size() && u != v && g.priority[u] == p
    ensures Shaped(g, dis, Write(g, x, v)) && Known(g, dis, s, Write(g, x, v), p, u)
  {
    var y := Write(g, x, v);
    assert y.t == Decide(x.t, v, x.t.strategy[v], true);
    assert Known(g, dis, s, x, p, u);
    UnheldBefore(g, dis, s, x.t, p, x.rank, v);
    assert v in Dom(dis) && Flips(s, y.t, v);
    forall w: nat | w < g.Size() && Now(g, x.t, w) == Gainer(p) ensures Now(g, y.t, w) == Gainer(p) { }
    assert y.phase[u] == x.phase[u];
  }

  lemma WaitingInv(g: Game, dis: seq<bool>, s: Standing, x: Evaluation, p: nat, v: nat)
    requires EvaluationInv(g, dis, s, x, p) && v < g.Size() && g.priority[v] == p && x.phase[v] == Waiting
    ensures EvaluationInv(g, dis, s, StepOf(g, dis, x, v), p)
  {
    hide Swept, Rests, Persuaded, Quiet;
    var y := StepOf(g, dis, x, v);
    forall u: nat | u < g.Size() && g.priority[u] == p ensures Known(g, dis, s, y, p, u) {
      assert Known(g, dis, s, x, p, u);
    }
  }

  /** A finished scan without a good successor: the owner has to give in. */
  lemma GivesIn(g: Game, dis: seq<bool>, s: Standing, t: Standing, p: nat, v: nat)
    requires Fits(g, dis, s) && Fits(g, dis, t) && v < g.Size() && g.priority[v] == p && !Held(t, v)
    requires ReadSoFar(g, dis, s, t, p, v, |g.outs[v]|)
    ensures g.owner[v] != Gainer(p) ==> Persuaded(g, dis, t, p, v, t.strategy[v])
    ensures g.owner[v] == Gainer(p) && Quiet(g, dis, s, t) ==> Rests(g, dis, t, v)
  {
    if g.owner[v] != Gainer(p) || Quiet(g, dis, s, t) {
      forall u: nat | u < g.Size() && !dis[u] && g.Edge(v, u) ensures Now(g, t, u) == 1 - g.owner[v] {
        var j :| 0 <= j < |g.outs[v]| && g.outs[v][j] == u;
      }
      if g.owner[v] == Gainer(p) {
        forall u: nat | u < g.Size() && !dis[u] && Leans(g, t, v, u) ensures Now(g, t, u) == Now(g, t, v) { }
      }
    }
  }

  /** A good successor is a reason to flip for the gainer, and a reason to stay for the other player. */
  lemma Finds(g: Game, dis: seq<bool>, t: Standing, p: nat, v: nat, to: nat)
    requires Fits(g, dis, t) && v < g.Size() && g.priority[v] == p && !Held(t, v)
    requires to < g.Size() && g.Edge(v, to) && !dis[to] && Now(g, t, to) == g.owner[v]
    ensures var t' := Decide(t, v, to, false);
      Fits(g, dis, t') && t'.strategy[v] == to
      && if g.owner[v] == Gainer(p) then Persuaded(g, dis, t', p, v, to) else Rests(g, dis, t', v)
  {
    var t' := Decide(t, v, to, false);
    DecidedValue(g, dis, t, v, to, false, to);
    DecidedValue(g, dis, t, v, to, false, v);
    forall u: nat | u < g.Size() && !dis[u] && Leans(g, t', v, u) && g.owner[v] != Gainer(p) ensures Now(g, t', u) == Now(g, t', v) { }
  }

  lemma ReadingKnown(g: Game, dis: seq<bool>, s: Standing, x: Evaluation, p: nat, v: nat)
    requires EvaluationInv(g, dis, s, x, p) && v < g.Size() && g.priority[v] == p && x.phase[v].Reading?
    ensures Shaped(g, dis, ReadNext(g, dis, x, v)) && Known(g, dis, s, ReadNext(g, dis, x, v), p, v)
  {
    hide Rests, Persuaded, Swept;
    var k, y := x.phase[v].k, ReadNext(g, dis, x, v);
    assert Known(g, dis, s, x, p, v);
    if k == |g.outs[v]| {
      GivesIn(g, dis, s, x.t, p, v);
    } else {
      var to := g.outs[v][k];
      if !dis[to] && Now(g, x.t, to) == g.owner[v] {
        Finds(g, dis, x.t, p, v, to);
      }
    }
  }

  lemma ReadingInv(g: Game, dis: seq<bool>, s: Standing, x: Evaluation, p: nat, v: nat)
    requires EvaluationInv(g, dis, s, x, p) && v < g.Size() && g.priority[v] == p && x.phase[v].Reading?
    ensures EvaluationInv(g, dis, s, ReadNext(g, dis, x, v), p)
  {
    var y := ReadNext(g, dis, x, v);
    assert Known(g, dis, s, x, p, v);
    ReadingKnown(g, dis, s, x, p, v);
    assert y.rank == x.rank && y.clock == x.clock;
    var str := y.t.strategy[v];
    assert y.t == Decide(x.t, v, str, false) && y == Moved(x.(t := y.t), v, y.phase[v]);
    hide Swept, Rests, Persuaded, Quiet, Known, ReadNext;
    SweepStay(g, dis, s, x.t, p, x.rank, v, str);
    forall u: nat | u < g.Size() && g.priority[u] == p ensures Known(g, dis, s, y, p, u) {
      if u != v { KnownAfterStay(g, dis, s, x, p, v, str, y.phase[v], u); }
    }
  }

  lemma RankChange(g: Game, dis: seq<bool>, s: Standing, t: Standing, p: nat, rank: seq<nat>, v: nat, c: nat)
    requires Fits(g, dis, s) && Fits(g, dis, t) && |rank| == g.Size() && Swept(g, dis, s, t, p, rank)
    requires v < g.Size() && !Flips(s, t, v)
    ensures Swept(g, dis, s, t, p, rank[v := c])
  {
    forall u: nat | u in Dom(dis) && Flips(s, t, u) ensures FlipRests(g, dis, s, t, rank[v := c], u) {
      assert FlipRests(g, dis, s, t, rank, u);
    }
  }

  lemma MarkInv(g: Game, dis: seq<bool>, s: Standing, x: Evaluation, p: nat, v: nat)
    requires EvaluationInv(g, dis, s, x, p) && v < g.Size() && g.priority[v] == p && x.phase[v] == Decided(Gainer(p))
    ensures EvaluationInv(g, dis, s, Write(g, x, v), p)
  {
    var y := Write(g, x, v);
    assert Known(g, dis, s, x, p, v);
    RankChange(g, dis, s, x.t, p, x.rank, v, x.clock);
    SweepFlip(g, dis, s, x.t, p, x.rank[v := x.clock], v, x.t.strategy[v]);
    UnheldBefore(g, dis, s, x.t, p, x.rank, v);
    assert Flips(s, y.t, v);
    hide Swept, Rests, Persuaded, Known;
    forall u: nat | u in Dom(dis) && Flips(s, y.t, u) ensures y.rank[u] < y.clock {
      if u != v { assert Flips(s, x.t, u); }
    }
    forall u: nat | u < g.Size() && g.priority[u] == p ensures Known(g, dis, s, y, p, u) {
      if u != v { KnownAfterMark(g, dis, s, x, p, v, u); } else { MarkedKnown(g, dis, s, x, p, v); }
    }
  }

  lemma MarkedKnown(g: Game, dis: seq<bool>, s: Standing, x: Evaluation, p: nat, v: nat)
    requires Fits(g, dis, s) && Shaped(g, dis, x) && v < g.Size() && g.priority[v] == p && x.phase[v] == Decided(Gainer(p))
    ensures Shaped(g, dis, Write(g, x, v)) && Known(g, dis, s, Write(g, x, v), p, v)
  {
  }

  lemma ConfirmInv(g: Game, dis: seq<bool>, s: Standing, x: Evaluation, p: nat, v: nat)
    requires EvaluationInv(g, dis, s, x, p) && v < g.Size() && g.priority[v] == p
    requires x.phase[v].Decided? && x.phase[v].winner == g.Parity(v)
    ensures EvaluationInv(g, dis, s, Write(g, x, v), p)
  {
    hide Swept, Rests, Persuaded, Quiet;
    var y := Write(g, x, v);
    forall u: nat | u < g.Size() && g.priority[u] == p ensures Known(g, dis, s, y, p, u) {
      assert Known(g, dis, s, x, p, u);
    }
  }

  lemma StepOfInv(g: Game, dis: seq<bool>, s: Standing, x: Evaluation, p: nat, v: nat)
    requires EvaluationInv(g, dis, s, x, p) && v < g.Size() && g.priority[v] == p
    ensures Shaped(g, dis, StepOf(g, dis, x, v)) && EvaluationInv(g, dis, s, StepOf(g, dis, x, v), p)
  {
    hide Swept, Known, Write, ReadNext, Moved;
    match x.phase[v]
    case Waiting => WaitingInv(g, dis, s, x, p, v);
    case Reading(_) => ReadingInv(g, dis, s, x, p, v);
    case Decided(winner) =>
      if winner == g.Parity(v) { ConfirmInv(g, dis, s, x, p, v); } else { MarkInv(g, dis, s, x, p, v); }
    case Over =>
  }

  // ---------------------------------------------------------------------------------------------------------
  // Whole passes and turns
  // ---------------------------------------------------------------------------------------------------------

  /** `x` evaluates the block of priority `p` from `s` by the steps in `schedule`. */
  ghost predicate Reaches(g: Game, dis: seq<bool>, s: Standing, p: nat, schedule: seq<nat>, x: Evaluation)
    decreases |schedule|
  {
    if schedule == [] then Fits(g, dis, s) && Begun(g, s, x)
    else
      var n := |schedule| - 1;
      var v := schedule[n];
      exists y: Evaluation :: Reaches(g, dis, s, p, schedule[..n], y)
        && Shaped(g, dis, y) && v < g.Size() && g.priority[v] == p && x == StepOf(g, dis, y, v)
  }

  lemma {:induction false} ReachesInv(g: Game, dis: seq<bool>, s: Standing, p: nat, schedule: seq<nat>, x: Evaluation)
    requires Reaches(g, dis, s, p, schedule, x)
    ensures EvaluationInv(g, dis, s, x, p)
    decreases |schedule|
  {
    hide EvaluationInv, StepOf;
    if schedule == [] {
      BegunInv(g, dis, s, x, p);
    } else {
      var n := |schedule| - 1;
      var v := schedule[n];
      var y: Evaluation :| Reaches(g, dis, s, p, schedule[..n], y)
        && Shaped(g, dis, y) && v < g.Size() && g.priority[v] == p && x == StepOf(g, dis, y, v);
      ReachesInv(g, dis, s, p, schedule[..n], y);
      StepOfInv(g, dis, s, y, p, v);
    }
  }

  /** Whatever the schedule, evaluating the whole block is a pass. */
  lemma ConcurrentPass(g: Game, dis: seq<bool>, s: Standing, p: nat, schedule: seq<nat>, x: Evaluation)
    requires Reaches(g, dis, s, p, schedule, x)
    requires |x.phase| == g.Size() && forall v :: 0 <= v < g.Size() && g.priority[v] == p ==> x.phase[v] == Over
    ensures Pass(g, dis, s, x.t, p)
  {
    ReachesInv(g, dis, s, p, schedule, x);
    hide Swept, Rests, Reaches;
    if Quiet(g, dis, s, x.t) {
      forall v: nat | v in Dom(dis) && !Held(x.t, v) && g.priority[v] == p ensures Rests(g, dis, x.t, v) {
        assert Known(g, dis, s, x, p, v);
      }
    }
    assert PassBy(g, dis, s, x.t, p, x.rank);
  }

  /** A turn of the parallel main loop, under any interleaving of its tasks, is a turn of the machine: the parallel
      solver terminates and is correct with the sequential one. */
  lemma ParallelTurn(g: Game, dis: seq<bool>, c: Config, schedule: seq<nat>, x: Evaluation, i: nat, order: seq<nat>)
    requires Fits(g, dis, c.s) && c.p <= Top(g) && !NoBlock(g, c.p)
    requires i <= g.Size() && forall v :: 0 <= v < g.Size() ==> (g.priority[v] < c.p <==> v < i)
    requires Reaches(g, dis, c.s, c.p, schedule, x)
    requires |x.phase| == g.Size() && forall v :: 0 <= v < g.Size() && g.priority[v] == c.p ==> x.phase[v] == Over
    requires forall j, k :: 0 <= j < k < |order| ==> order[j] != order[k]
    requires forall v: nat :: v in order <==> exists a :: 0 <= a < |Leaves(0, i)| && In(Leaves(0, i)[a], v)
    ensures Fits(g, dis, x.t)
    ensures Next(g, dis, c, if Quiet(g, dis, c.s, x.t) then Config(x.t, c.p + 1) else Config(FreezeAll(g, dis, x.t, c.p, order), 0))
  {
    hide Swept, Reaches, Pass, Quiet, Leaves, FreezeAll;
    ReachesInv(g, dis, c.s, c.p, schedule, x);
    ConcurrentPass(g, dis, c.s, c.p, schedule, x);
    ParallelFreeze(g, dis, x.t, c.p, i, order);
    var c' := if Quiet(g, dis, c.s, x.t) then Config(x.t, c.p + 1) else Config(FreezeAll(g, dis, x.t, c.p, order), 0);
    assert After(g, dis, c, x.t, c');
  }
}
