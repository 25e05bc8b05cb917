/** Fixpoint iteration with justifications (FPJSolver::runSeq) as a machine whose step is one turn of the
    source's endless loop. The imperative solver in FPJSolver.dfy refines this machine. */
module FixpointJustification {
  import opened ParityGames

  datatype State = State(
    i: nat, blockstart: nat, curParity: Player,
    strategy: seq<int>, justified: seq<bool>, distraction: seq<bool>,
    q: seq<nat>, iterations: nat)

  /** One turn of the loop either goes on or leaves it. */
  datatype Outcome = Running(s: State) | Finished(s: State)

  ghost predicate Instance(g: Game, dis: seq<bool>) {
    g.Valid() && g.Sorted() && |dis| == g.Size() > 0
  }

  /** The enabled vertices. */
  function Dom(dis: seq<bool>): set<nat> {
    set v: nat | v < |dis| && !dis[v]
  }

  ghost predicate Sized(g: Game, s: State) {
    && g.Valid()
    && |s.strategy| == |s.justified| == |s.distraction| == g.Size()
    && s.i <= g.Size() && s.blockstart < g.Size()
    && forall k :: 0 <= k < |s.q| ==> s.q[k] < g.Size()
  }

  function AllFalse(n: nat): seq<bool> { seq(n, _ => false) }

  /** The state before the loop; the strategy array is not initialised. */
  function Initial(g: Game, strategy: seq<int>): State
    requires g.Size() > 0
  {
    var n := g.Size();
    State(0, 0, g.Parity(0), strategy, AllFalse(n), AllFalse(n), [], 0)
  }

  function Min(a: nat, b: nat): nat { if a < b then a else b }

  /** The player for whom `v` currently counts as won. */
  function Value(g: Game, distraction: seq<bool>, v: nat): Player
    requires |distraction| == g.Size() && v < g.Size()
  {
    if distraction[v] then 1 - g.Parity(v) else g.Parity(v)
  }

  // ---------------------------------------------------------------------------------------------------------
  // One-step evaluation
  // ---------------------------------------------------------------------------------------------------------

  /** The first enabled successor of `v`, from position `k` on, that is good for its owner, or -1. */
  function FirstGood(g: Game, dis: seq<bool>, distraction: seq<bool>, v: nat, k: nat): int
    requires g.Valid() && |dis| == |distraction| == g.Size() && v < g.Size() && k <= |g.outs[v]|
    decreases |g.outs[v]| - k
  {
    if k == |g.outs[v]| then -1
    else
      var to := g.outs[v][k];
      if !dis[to] && Value(g, distraction, to) == g.owner[v] then to
      else FirstGood(g, dis, distraction, v, k + 1)
  }

  function OneStep(g: Game, dis: seq<bool>, distraction: seq<bool>, v: nat): Player
    requires g.Valid() && |dis| == |distraction| == g.Size() && v < g.Size()
  {
    if FirstGood(g, dis, distraction, v, 0) != -1 then g.owner[v] else 1 - g.owner[v]
  }

  lemma {:induction false} FirstGoodMeaning(g: Game, dis: seq<bool>, distraction: seq<bool>, v: nat, k: nat)
    requires g.Valid() && |dis| == |distraction| == g.Size() && v < g.Size() && k <= |g.outs[v]|
    ensures var to := FirstGood(g, dis, distraction, v, k);
      if to == -1 then
        forall j :: k <= j < |g.outs[v]| && !dis[g.outs[v][j]] ==> Value(g, distraction, g.outs[v][j]) == 1 - g.owner[v]
      else
        0 <= to < g.Size() && g.Edge(v, to) && !dis[to] && Value(g, distraction, to) == g.owner[v]
    decreases |g.outs[v]| - k
  {
    if k < |g.outs[v]| {
      FirstGoodMeaning(g, dis, distraction, v, k + 1);
    }
  }

  function Evaluate(g: Game, dis: seq<bool>, s: State): (t: State)
    requires Sized(g, s) && |dis| == g.Size() && s.i < g.Size()
    ensures Sized(g, t)
  {
    if s.justified[s.i] then s.(i := s.i + 1)
    else
      s.(strategy := s.strategy[s.i := FirstGood(g, dis, s.distraction, s.i, 0)],
         q := if s.curParity != OneStep(g, dis, s.distraction, s.i) then s.q + [s.i] else s.q,
         i := s.i + 1)
  }

  // ---------------------------------------------------------------------------------------------------------
  // The end of a block
  // ---------------------------------------------------------------------------------------------------------

  /** The justification of `v` rests on its successor `w`. */
  predicate Supports(g: Game, strategy: seq<int>, v: nat, w: nat)
    requires g.Valid() && |strategy| == g.Size() && v < g.Size()
  {
    g.Edge(v, w) && (strategy[v] == -1 || strategy[v] == w)
  }

  function CountTrue(a: seq<bool>): nat {
    if a == [] then 0 else CountTrue(a[..|a| - 1]) + (if a[|a| - 1] then 1 else 0)
  }

  lemma {:induction false} CountCleared(a: seq<bool>, k: nat)
    requires k < |a| && a[k]
    ensures CountTrue(a[k := false]) == CountTrue(a) - 1
  {
    var b := a[k := false];
    if k < |a| - 1 {
      CountCleared(a[..|a| - 1], k);
      assert b[..|b| - 1] == a[..|a| - 1][k := false];
    } else {
      assert b[..|b| - 1] == a[..|a| - 1];
    }
  }

  function Reset(s: State, from: nat): State
    requires from < |s.justified| && from < |s.distraction|
  {
    s.(justified := s.justified[from := false], distraction := s.distraction[from := false],
       q := s.q + [from], i := Min(from, s.i))
  }

  /** Resetting leaves the strategies and the block alone. */
  ghost predicate SameBlock(s: State, t: State) {
    t.strategy == s.strategy && t.blockstart == s.blockstart && t.curParity == s.curParity
  }

  /** Reset the justified predecessors of `v` whose justification rests on `v`. */
  function ResetIns(g: Game, s: State, v: nat, k: nat): (t: State)
    requires Sized(g, s) && v < g.Size() && k <= |g.ins[v]|
    ensures Sized(g, t)
    ensures SameBlock(s, t)
    ensures |t.q| + 2 * CountTrue(t.justified) <= |s.q| + 2 * CountTrue(s.justified)
    decreases |g.ins[v]| - k
  {
    if k == |g.ins[v]| then s
    else
      var from := g.ins[v][k];
      if s.justified[from] && (s.strategy[from] == -1 || s.strategy[from] == v) then
        CountCleared(s.justified, from);
        ResetIns(g, Reset(s, from), v, k + 1)
      else
        ResetIns(g, s, v, k + 1)
  }

  function Propagate(g: Game, s: State): (t: State)
    requires Sized(g, s)
    ensures Sized(g, t) && t.q == [] && SameBlock(s, t)
    decreases |s.q| + 2 * CountTrue(s.justified)
  {
    if s.q == [] then s
    else
      var v := s.q[|s.q| - 1];
      Propagate(g, ResetIns(g, s.(q := s.q[..|s.q| - 1]), v, 0))
  }

  function Marked(g: Game, s: State): (t: State)
    requires Sized(g, s)
    ensures Sized(g, t)
  {
    s.(justified := seq(g.Size(), v requires 0 <= v < g.Size() => s.justified[v] || v in s.q),
       distraction := seq(g.Size(), v requires 0 <= v < g.Size() => s.distraction[v] || v in s.q))
  }

  function JustifyBlock(g: Game, dis: seq<bool>, s: State): (t: State)
    requires Sized(g, s) && |dis| == g.Size()
    ensures Sized(g, t)
  {
    s.(justified := seq(g.Size(), v requires 0 <= v < g.Size() => s.justified[v] || (s.blockstart <= v < s.i && !dis[v])))
  }

  function EndBlock(g: Game, dis: seq<bool>, s: State): (t: State)
    requires Sized(g, s) && |dis| == g.Size()
    ensures Sized(g, t)
  {
    if s.q != [] then
      var t := Propagate(g, Marked(g, s));
      t.(iterations := t.iterations + 1, i := Min(t.i, s.blockstart))
    else
      JustifyBlock(g, dis, s)
  }

  // ---------------------------------------------------------------------------------------------------------
  // The loop
  // ---------------------------------------------------------------------------------------------------------

  predicate BlockEnded(g: Game, s: State)
    requires s.i <= g.Size()
  {
    s.i == g.Size() || g.Parity(s.i) != s.curParity
  }

  function NextBlock(g: Game, s: State): (t: State)
    requires Sized(g, s) && s.i < g.Size()
    ensures Sized(g, t)
  {
    s.(curParity := g.Parity(s.i), blockstart := s.i)
  }

  function Step(g: Game, dis: seq<bool>, s: State): (o: Outcome)
    requires Sized(g, s) && |dis| == g.Size()
    ensures Sized(g, o.s)
  {
    if s.i < g.Size() && dis[s.i] then Running(s.(i := s.i + 1))
    else if BlockEnded(g, s) then
      var t := EndBlock(g, dis, s);
      if t.i == g.Size() then Finished(t) else Running(Evaluate(g, dis, NextBlock(g, t)))
    else Running(Evaluate(g, dis, s))
  }

  /** The state after at most `budget` turns. */
  function Run(g: Game, dis: seq<bool>, s: State, budget: nat): (o: Outcome)
    requires Sized(g, s) && |dis| == g.Size()
    ensures Sized(g, o.s)
    decreases budget
  {
    if budget == 0 then Running(s)
    else
      match Step(g, dis, s)
      case Finished(t) => Finished(t)
      case Running(t) => Run(g, dis, t, budget - 1)
  }

  /** The winners and strategies handed to Oink::solve at the end. */
  function Winners(g: Game, s: State): (win: seq<Player>)
    requires Sized(g, s)
  {
    seq(g.Size(), v requires 0 <= v < g.Size() => Value(g, s.distraction, v))
  }

  function Strategies(g: Game, s: State): (str: seq<int>)
    requires Sized(g, s)
  {
    seq(g.Size(), v requires 0 <= v < g.Size() => if Value(g, s.distraction, v) == g.owner[v] then s.strategy[v] else -1)
  }
}
