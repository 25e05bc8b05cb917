/** Games on which the stack of FPJSolver::runSeq needs almost twice as many entries as it has. Of `k + 6` vertices, the
    `k` vertices from 4 on are flipped together with vertex `k + 4`, which is popped first. That resets the disabled
    vertex 0, and vertex 0 resets all the others while they are still on the stack.

    Vertex `k + 5` is lost by a loop without alternative, and vertex 0 is attracted to it, before the solver starts. */
module FPJCapacity {
  import opened ParityGames
  import opened Solutions
  import opened FixpointJustification
  import opened FPJInvariant
  import opened FPJTermination
  import opened FPJRestarts
  import opened FPJCutoff
  import opened FPJStack

  // ---------------------------------------------------------------------------------------------------------
  // The games
  // ---------------------------------------------------------------------------------------------------------

  /** From `b - 1` down to `a`, as the lists of incoming edges are built. */
  function Down(a: nat, b: nat): (s: seq<nat>)
    requires a <= b
    ensures |s| == b - a && forall j :: 0 <= j < |s| ==> s[j] == b - 1 - j
  {
    seq(b - a, j requires 0 <= j < b - a => b - 1 - j)
  }

  lemma {:induction false} DownCount(a: nat, b: nat, u: nat)
    requires a <= b
    ensures multiset(Down(a, b))[u] == if a <= u < b then 1 else 0
    decreases b - a
  {
    if a < b {
      DownCount(a, b - 1, u);
      assert Down(a, b) == [b - 1] + Down(a, b - 1);
    } else {
      assert Down(a, b) == [];
    }
  }

  function Range(a: nat, b: nat): (r: set<nat>)
    requires a <= b
    ensures forall v: nat :: v in r <==> a <= v < b
    decreases b - a
  {
    if a == b then {} else Range(a, b - 1) + {b - 1}
  }

  function Outs(k: nat, v: nat): seq<nat> {
    if v == 0 then [k + 4, k + 5]
    else if v == 1 then [4]
    else if v == 2 then [3]
    else if v == 3 || v == k + 4 then [2]
    else if v < k + 4 then [0, 2]
    else [k + 5]
  }

  function Ins(k: nat, v: nat): seq<nat> {
    if v == 0 then Down(4, k + 4)
    else if v == 2 then Down(3, k + 5)
    else if v == 3 then [2]
    else if v == 4 then [1]
    else if v == k + 4 then [0]
    else if v == k + 5 then [k + 5, 0]
    else []
  }

  function Family(k: nat): (g: Game)
    requires k > 0
    ensures g.Size() == |g.owner| == |g.outs| == |g.ins| == k + 6
    ensures forall v :: 0 <= v < k + 6 ==>
      && g.priority[v] == (if v < 4 then 0 else if v < k + 5 then 1 else 2)
      && g.owner[v] == (if v == 0 || v == k + 4 then 0 else 1)
      && g.outs[v] == Outs(k, v) && g.ins[v] == Ins(k, v)
  {
    Game(seq(k + 6, v requires 0 <= v < k + 6 => if v < 4 then 0 else if v < k + 5 then 1 else 2),
         seq(k + 6, v requires 0 <= v < k + 6 => if v == 0 || v == k + 4 then 0 else 1),
         seq(k + 6, v requires 0 <= v < k + 6 => Outs(k, v)),
         seq(k + 6, v requires 0 <= v < k + 6 => Ins(k, v)))
  }

  function Bits(k: nat, j: set<nat>): (b: seq<bool>)
    ensures |b| == k + 6 && forall v :: 0 <= v < k + 6 ==> b[v] == (v in j)
  {
    seq(k + 6, v requires 0 <= v < k + 6 => v in j)
  }

  function Solved(k: nat): (dis: seq<bool>)
    ensures |dis| == k + 6 && forall v :: 0 <= v < k + 6 ==> dis[v] == (v == 0 || v == k + 5)
  {
    Bits(k, {0, k + 5})
  }

  predicate Link(k: nat, u: nat, v: nat) {
    || (u == 0 && (v == k + 4 || v == k + 5)) || (u == 1 && v == 4) || (u == 2 && v == 3)
    || ((u == 3 || u == k + 4) && v == 2) || (4 <= u < k + 4 && (v == 0 || v == 2)) || (u == k + 5 && v == k + 5)
  }

  lemma PairCount(a: nat, b: nat, x: nat)
    requires a != b
    ensures multiset([a, b])[x] == if x == a || x == b then 1 else 0
  {
    assert multiset([a, b]) == multiset{a, b};
  }

  lemma OutCount(k: nat, u: nat, v: nat)
    requires k > 0 && u < k + 6 && v < k + 6
    ensures multiset(Outs(k, u))[v] == if Link(k, u, v) then 1 else 0
  {
    PairCount(k + 4, k + 5, v);
    PairCount(0, 2, v);
  }

  lemma InCount(k: nat, u: nat, v: nat)
    requires k > 0 && u < k + 6 && v < k + 6
    ensures multiset(Ins(k, v))[u] == if Link(k, u, v) then 1 else 0
  {
    DownCount(4, k + 4, u);
    DownCount(3, k + 5, u);
    PairCount(k + 5, 0, u);
    hide Down;
  }

  lemma EdgesMatch(k: nat, u: nat, v: nat)
    requires k > 0 && u < k + 6 && v < k + 6
    ensures multiset(Ins(k, v))[u] == multiset(Outs(k, u))[v]
  {
    hide Ins, Outs, Link;
    OutCount(k, u, v);
    InCount(k, u, v);
  }

  lemma EdgesInside(k: nat, v: nat)
    requires k > 0 && v < k + 6
    ensures forall j :: 0 <= j < |Outs(k, v)| ==> Outs(k, v)[j] < k + 6
    ensures forall j :: 0 <= j < |Ins(k, v)| ==> Ins(k, v)[j] < k + 6
  {
  }

  lemma FamilyInstance(k: nat)
    requires k > 0
    ensures Instance(Family(k), Solved(k)) && Family(k).Size() == k + 6
  {
    hide Family, Outs, Ins, Down, Solved;
    var g := Family(k);
    forall v | 0 <= v < k + 6
      ensures forall j :: 0 <= j < |g.outs[v]| ==> g.outs[v][j] < k + 6
      ensures forall j :: 0 <= j < |g.ins[v]| ==> g.ins[v][j] < k + 6
    {
      EdgesInside(k, v);
    }
    forall u, v | 0 <= u < k + 6 && 0 <= v < k + 6 ensures multiset(g.ins[v])[u] == multiset(g.outs[u])[v] {
      EdgesMatch(k, u, v);
    }
  }

  function Winner(k: nat): seq<Player> {
    seq(k + 6, _ => 0)
  }

  function Strategy(k: nat): seq<int> {
    seq(k + 6, v => if v == 0 then k + 5 else -1)
  }

  /** Even wins vertex `k + 5`, and vertex 0 by moving there; nothing else is attracted, and every other vertex keeps a
      successor. */
  lemma FamilySolved(k: nat)
    requires k > 0
    ensures PartialSolution(Family(k), {0, k + 5}, Winner(k), Strategy(k)) && AttractorClosed(Family(k), {0, k + 5}, Winner(k))
    ensures Vertices(Family(k)) - Dom(Solved(k)) == {0, k + 5}
    ensures Within(Family(k), Dom(Solved(k))) && NoDeadEnds(Family(k), Dom(Solved(k)))
  {
    hide Game.Valid, CyclesWon, Family, Down, Solved, NoDeadEnds, AttractorClosed;
    FamilyInstance(k);
    FamilyCycles(k);
    FamilyRepels(k);
    FamilyGoesOn(k);
    assert Family(k).Edge(0, k + 5);
  }

  lemma FamilyStaying(k: nat, u: nat)
    requires k > 0 && u in Dom(Solved(k))
    ensures u < k + 6 && Family(k).Edge(u, Stay(k, u)) && Stay(k, u) in Dom(Solved(k)) && Stay(k, u) !in {0, k + 5}
  {
    FamilyStays(k, u);
  }

  lemma FamilyGoesOn(k: nat)
    requires k > 0
    ensures Family(k).Valid() && Within(Family(k), Dom(Solved(k))) && NoDeadEnds(Family(k), Dom(Solved(k)))
  {
    hide Game.Valid, Family, Stay, Solved;
    FamilyInstance(k);
    forall u | u in Dom(Solved(k)) ensures HasSuccessor(Family(k), Dom(Solved(k)), u) { FamilyStaying(k, u); }
  }

  lemma FamilyOwners(k: nat, u: nat, v: nat)
    requires k > 0 && u < k + 6 && u !in {0, k + 5} && v in {0, k + 5} && v in Outs(k, u)
    ensures Family(k).owner[u] == 1
  {
  }

  lemma FamilyRepels(k: nat)
    requires k > 0
    ensures Family(k).Valid() && Within(Family(k), {0, k + 5}) && AttractorClosed(Family(k), {0, k + 5}, Winner(k))
  {
    hide Game.Valid, Family, Outs, Stay, Down;
    FamilyInstance(k);
    var g, s := Family(k), {0, k + 5};
    forall u: nat, v: nat | u < g.Size() && u !in s && v in s && g.Edge(u, v) ensures Winner(k)[v] != g.owner[u] {
      FamilyOwners(k, u, v);
    }
    forall u: nat | u < g.Size() && u !in s ensures g.Edge(u, Stay(k, u)) && Stay(k, u) !in s {
      FamilyStaying(k, u);
    }
    assert Repelled(g, s, s, Winner(k));
  }

  function Stay(k: nat, u: nat): nat {
    if u == 1 then 4 else if u == 2 then 3 else 2
  }

  lemma FamilyStays(k: nat, u: nat)
    requires k > 0 && u < k + 6 && u !in {0, k + 5}
    ensures Stay(k, u) in Outs(k, u) && Stay(k, u) !in {0, k + 5} && Stay(k, u) < k + 6
  {
  }

  lemma FamilyCycles(k: nat)
    requires k > 0
    ensures Shape(Family(k), {0, k + 5}, Winner(k), Strategy(k))
    ensures CyclesWon(Family(k), {0, k + 5}, Winner(k), Strategy(k))
  {
    hide Game.Valid, Family, Down, Solved;
    FamilyInstance(k);
    var g, win, str := Family(k), Winner(k), Strategy(k);
    forall w | ClosedWalk(g, {0, k + 5}, win, str, w) ensures Won(g, win, w) {
      WalkInside(g, {0, k + 5}, win, str, w);
      assert forall j :: 0 <= j < |w| ==> w[j] in {0, k + 5};
      hide ClosedWalk;
      if j :| 0 <= j < |w| && w[j] == k + 5 {
        assert g.Parity(w[j]) == 0;
      } else {
        assert g.Parity(w[0]) == 0;
      }
    }
  }

  // ---------------------------------------------------------------------------------------------------------
  // Turns
  // ---------------------------------------------------------------------------------------------------------

  function At(k: nat, i: nat, blockstart: nat, curParity: Player, x: seq<int>, j: set<nat>, d: set<nat>, q: seq<nat>, r: nat): State {
    State(i, blockstart, curParity, x, Bits(k, j), Bits(k, d), q, r)
  }

  /** The run gets from `s` to `t`. */
  ghost predicate Reaches(k: nat, s: State, t: State)
    requires k > 0
  {
    && Instance(Family(k), Solved(k)) && Sized(Family(k), s)
    && exists m: nat :: Run(Family(k), Solved(k), s, m) == Running(t)
  }

  lemma ReachesTrans(k: nat, s: State, t: State, u: State)
    requires k > 0 && Reaches(k, s, t) && Reaches(k, t, u)
    ensures Reaches(k, s, u)
  {
    hide Run;
    var g, dis := Family(k), Solved(k);
    var m: nat :| Run(g, dis, s, m) == Running(t);
    var n: nat :| Run(g, dis, t, n) == Running(u);
    RunSplit(g, dis, s, m, n);
  }

  ghost predicate Turns(k: nat, s: State, t: State)
    requires k > 0
  {
    Instance(Family(k), Solved(k)) && Sized(Family(k), s) && Step(Family(k), Solved(k), s) == Running(t)
  }

  lemma TurnReaches(k: nat, s: State, t: State)
    requires k > 0 && Turns(k, s, t)
    ensures Reaches(k, s, t)
  {
    hide Step;
    assert Run(Family(k), Solved(k), t, 0) == Running(t);
    assert Run(Family(k), Solved(k), s, 1) == Running(t);
  }

  /** What the one-step rule chooses. */
  lemma Choices(k: nat, d: set<nat>, v: nat)
    requires k > 0 && v < k + 5 && v != 0 && 4 !in d && 2 !in d && 3 !in d && Instance(Family(k), Solved(k))
    ensures FirstGood(Family(k), Solved(k), Bits(k, d), v, 0) == if v == 1 then 4 else if v == k + 4 then 2 else -1
    ensures OneStep(Family(k), Solved(k), Bits(k, d), v) == if v == 1 then 1 else 0
  {
    hide Game.Valid, Family, Down, Solved, Bits;
    var g, dis, b := Family(k), Solved(k), Bits(k, d);
    assert g.outs[v] == Outs(k, v);
    if 4 <= v < k + 4 {
      assert FirstGood(g, dis, b, v, 2) == -1;
      assert FirstGood(g, dis, b, v, 1) == -1;
    }
  }

  lemma ZeroMoves(k: nat, dis: seq<bool>, b: seq<bool>)
    requires k > 0 && Instance(Family(k), dis) && |b| == k + 6 && !dis[k + 4] && dis[k + 5]
    ensures FirstGood(Family(k), dis, b, 0, 0) == if b[k + 4] then k + 4 else -1
    ensures OneStep(Family(k), dis, b, 0) == if b[k + 4] then 0 else 1
  {
    hide Game.Valid, Family, Down;
    var g := Family(k);
    assert g.outs[0] == Outs(k, 0);
    assert FirstGood(g, dis, b, 0, 2) == -1;
    assert FirstGood(g, dis, b, 0, 1) == -1;
  }

  lemma ZeroChoice(k: nat, d: set<nat>)
    requires k > 0 && Instance(Family(k), Solved(k))
    ensures FirstGood(Family(k), Solved(k), Bits(k, d), 0, 0) == if k + 4 in d then k + 4 else -1
    ensures OneStep(Family(k), Solved(k), Bits(k, d), 0) == if k + 4 in d then 0 else 1
  {
    hide FirstGood, OneStep, Family, Game.Valid;
    ZeroMoves(k, Solved(k), Bits(k, d));
  }

  lemma Start(k: nat, x: seq<int>)
    requires k > 0 && |x| == k + 6
    ensures Reaches(k, Initial(Family(k), x), At(k, 1, 0, 0, x, {}, {}, [], 0))
  {
    FamilyInstance(k);
    hide Game.Valid, Down;
    var s := Initial(Family(k), x);
    assert AllFalse(k + 6) == Bits(k, {});
    assert Turns(k, s, At(k, 1, 0, 0, x, {}, {}, [], 0));
    TurnReaches(k, s, At(k, 1, 0, 0, x, {}, {}, [], 0));
  }

  /** One vertex of the first block. */
  lemma ScanOne(k: nat, v: nat, x: seq<int>, j: set<nat>, d: set<nat>, q: seq<nat>, r: nat)
    requires k > 0 && |x| == k + 6 && 1 <= v < 4 && 2 !in d && 3 !in d && 4 !in d && forall m :: 0 <= m < |q| ==> q[m] < k + 6
    ensures Reaches(k, At(k, v, 0, 0, x, j, d, q, r),
      At(k, v + 1, 0, 0, if v in j then x else x[v := if v == 1 then 4 else -1], j, d, if v == 1 && v !in j then q + [1] else q, r))
  {
    var s := At(k, v, 0, 0, x, j, d, q, r);
    var t := At(k, v + 1, 0, 0, if v in j then x else x[v := if v == 1 then 4 else -1], j, d, if v == 1 && v !in j then q + [1] else q, r);
    hide Reaches;
    EvaluatesOne(k, v, x, j, d, q, r);
    TurnReaches(k, s, t);
  }

  /** Inside a block a turn evaluates one vertex. */
  lemma ScanTurn(k: nat, i: nat, blockstart: nat, curParity: Player, x: seq<int>, j: set<nat>, d: set<nat>, q: seq<nat>, r: nat)
    requires k > 0 && |x| == k + 6 && 0 < i < k + 5 && blockstart < k + 6 && curParity == (if i < 4 then 0 else 1)
    requires forall m :: 0 <= m < |q| ==> q[m] < k + 6
    ensures Instance(Family(k), Solved(k)) && Sized(Family(k), At(k, i, blockstart, curParity, x, j, d, q, r))
    ensures Turns(k, At(k, i, blockstart, curParity, x, j, d, q, r), At(k, i + 1, blockstart, curParity,
      if i in j then x else x[i := FirstGood(Family(k), Solved(k), Bits(k, d), i, 0)], j, d,
      if i !in j && curParity != OneStep(Family(k), Solved(k), Bits(k, d), i) then q + [i] else q, r))
  {
    FamilyInstance(k);
    hide Instance, Game.Valid, Family, Down, Solved, Bits, FirstGood, OneStep, Outs, Ins;
    var s := At(k, i, blockstart, curParity, x, j, d, q, r);
    assert Sized(Family(k), s);
    assert Step(Family(k), Solved(k), s) == Running(Evaluate(Family(k), Solved(k), s));
    hide Step;
  }

  lemma EvaluatesOne(k: nat, v: nat, x: seq<int>, j: set<nat>, d: set<nat>, q: seq<nat>, r: nat)
    requires k > 0 && |x| == k + 6 && 1 <= v < 4 && 2 !in d && 3 !in d && 4 !in d && forall m :: 0 <= m < |q| ==> q[m] < k + 6
    ensures Turns(k, At(k, v, 0, 0, x, j, d, q, r),
      At(k, v + 1, 0, 0, if v in j then x else x[v := if v == 1 then 4 else -1], j, d, if v == 1 && v !in j then q + [1] else q, r))
  {
    hide Turns, FirstGood, OneStep, At;
    ScanTurn(k, v, 0, 0, x, j, d, q, r);
    Choices(k, d, v);
  }

  /** What the strategies of vertices 1 to 3 come to in a pass over the first block. */
  function Passed(x: seq<int>, j: set<nat>): (y: seq<int>)
    requires |x| > 3
    ensures |y| == |x| && (1 !in j ==> y[1] == 4) && (2 !in j ==> y[2] == -1) && (3 !in j ==> y[3] == -1)
    ensures forall v :: 0 <= v < |x| && (v == 0 || v > 3 || v in j) ==> y[v] == x[v]
  {
    seq(|x|, v requires 0 <= v < |x| => if v == 1 && v !in j then 4 else if (v == 2 || v == 3) && v !in j then -1 else x[v])
  }

  lemma ScanFirst(k: nat, x: seq<int>, j: set<nat>, d: set<nat>, q: seq<nat>, r: nat)
    requires k > 0 && |x| == k + 6 && 2 !in d && 3 !in d && 4 !in d && forall m :: 0 <= m < |q| ==> q[m] < k + 6
    ensures Reaches(k, At(k, 1, 0, 0, x, j, d, q, r), At(k, 4, 0, 0, Passed(x, j), j, d, if 1 in j then q else q + [1], r))
  {
    hide Reaches, At;
    var y := if 1 in j then x else x[1 := 4];
    var p := if 1 in j then q else q + [1];
    var z := if 2 in j then y else y[2 := -1];
    var w := if 3 in j then z else z[3 := -1];
    ScanOne(k, 1, x, j, d, q, r);
    ScanOne(k, 2, y, j, d, p, r);
    ScanOne(k, 3, z, j, d, p, r);
    assert w == Passed(x, j);
    ReachesTrans(k, At(k, 1, 0, 0, x, j, d, q, r), At(k, 2, 0, 0, y, j, d, p, r), At(k, 3, 0, 0, z, j, d, p, r));
    ReachesTrans(k, At(k, 1, 0, 0, x, j, d, q, r), At(k, 3, 0, 0, z, j, d, p, r), At(k, 4, 0, 0, w, j, d, p, r));
  }

  /** The turn after a propagation that leads back to vertex 0. */
  lemma RestartTurn(k: nat, s: State, bs: nat, c: Player, x: seq<int>, j: set<nat>, d: set<nat>, r: nat)
    requires k > 0 && Instance(Family(k), Solved(k)) && Sized(Family(k), s) && AtBlockEnd(Family(k), Solved(k), s) && s.q != []
    requires |x| == k + 6 && EndBlock(Family(k), Solved(k), s) == At(k, 0, bs, c, x, j, d, [], r)
    ensures Turns(k, s, At(k, 1, 0, 0,
      if 0 in j then x else x[0 := if k + 4 in d then k + 4 else -1], j, d, if 0 in j || k + 4 in d then [] else [0], r))
  {
    var t := At(k, 0, bs, c, x, j, d, [], r);
    ZeroChoice(k, d);
    hide EndBlock, Instance, Game.Valid, Family, Down, Solved, Bits, FirstGood, OneStep, Outs, Ins;
    assert NextBlock(Family(k), t) == At(k, 0, 0, 0, x, j, d, [], r);
    assert Step(Family(k), Solved(k), s) == Running(Evaluate(Family(k), Solved(k), At(k, 0, 0, 0, x, j, d, [], r)));
    hide Step, AtBlockEnd;
  }

  lemma FirstBlockEnds(k: nat, x: seq<int>, j: set<nat>, d: set<nat>, q: seq<nat>, r: nat)
    requires k > 0 && |x| == k + 6 && forall m :: 0 <= m < |q| ==> q[m] < k + 6
    ensures Instance(Family(k), Solved(k)) && Sized(Family(k), At(k, 4, 0, 0, x, j, d, q, r))
    ensures AtBlockEnd(Family(k), Solved(k), At(k, 4, 0, 0, x, j, d, q, r))
  {
    FamilyInstance(k);
    hide Instance, Game.Valid, Family, Down, Solved, Bits, Outs, Ins;
  }

  /** Marking adds to the sets. */
  lemma MarkedAt(k: nat, i: nat, bs: nat, c: Player, x: seq<int>, j: set<nat>, d: set<nat>, q: seq<nat>, r: nat, more: set<nat>)
    requires k > 0 && Sized(Family(k), At(k, i, bs, c, x, j, d, q, r)) && forall v :: v in q <==> v in more
    ensures Marked(Family(k), At(k, i, bs, c, x, j, d, q, r)) == At(k, i, bs, c, x, j + more, d + more, q, r)
  {
    hide Family, Sized;
  }

  /** If nothing justified rests on the only flipped vertex `v`, the propagation does nothing. */
  lemma PopNothing(k: nat, s: State, v: nat)
    requires k > 0 && Sized(Family(k), s) && v < k + 6 && s.q == [v]
    requires forall u :: 0 <= u < k + 6 && s.justified[u] ==> u !in Ins(k, v)
    ensures Propagate(Family(k), s) == s.(q := [])
  {
    hide Family, Ins, Propagate;
    assert s.q[..0] == [];
    NoneReset(k, s.(q := []), v, 0);
    PropagateOne(k, s, v);
  }

  lemma PropagateOne(k: nat, s: State, v: nat)
    requires k > 0 && Sized(Family(k), s) && v < k + 6 && s.q == [v]
    requires ResetIns(Family(k), s.(q := []), v, 0) == s.(q := [])
    ensures Propagate(Family(k), s) == s.(q := [])
  {
    assert s.q[..0] == [];
  }

  lemma {:induction false} NoneReset(k: nat, s: State, v: nat, m: nat)
    requires k > 0 && Sized(Family(k), s) && v < k + 6 && m <= |Family(k).ins[v]|
    requires forall u :: 0 <= u < k + 6 && s.justified[u] ==> u !in Ins(k, v)
    ensures ResetIns(Family(k), s, v, m) == s
    decreases |Family(k).ins[v]| - m
  {
    hide Ins;
    if m < |Family(k).ins[v]| {
      assert Family(k).ins[v][m] in Ins(k, v);
      NoneReset(k, s, v, m + 1);
    }
  }

  /** A flip of vertex 1 or of vertex 0 in the first block resets nothing. */
  lemma FirstFlipped(k: nat, v: nat, x: seq<int>, j: set<nat>, d: set<nat>, r: nat)
    requires k > 0 && |x| == k + 6 && v in {0, 1} && j + {v} !! Range(4, k + 4)
    requires Instance(Family(k), Solved(k)) && Sized(Family(k), At(k, 4, 0, 0, x, j, d, [v], r))
    ensures EndBlock(Family(k), Solved(k), At(k, 4, 0, 0, x, j, d, [v], r)) == At(k, 0, 0, 0, x, j + {v}, d + {v}, [], r + 1)
  {
    MarkedAt(k, 4, 0, 0, x, j, d, [v], r, {v});
    var m := At(k, 4, 0, 0, x, j + {v}, d + {v}, [v], r);
    forall u | 0 <= u < k + 6 && m.justified[u] ensures u !in Ins(k, v) { InRange(k, v, u); }
    PopNothing(k, m, v);
    hide Propagate, Marked, Family, Solved, Bits, Ins, Instance, Sized;
  }

  lemma FirstFlip(k: nat, v: nat, x: seq<int>, j: set<nat>, d: set<nat>, r: nat)
    requires k > 0 && |x| == k + 6 && v in {0, 1} && j + {v} !! Range(4, k + 4)
    ensures Reaches(k, At(k, 4, 0, 0, x, j, d, [v], r), At(k, 1, 0, 0,
      if 0 in j + {v} then x else x[0 := if k + 4 in d + {v} then k + 4 else -1], j + {v}, d + {v},
      if 0 in j + {v} || k + 4 in d + {v} then [] else [0], r + 1))
  {
    hide EndBlock, Step, Family, Solved, Bits, Reaches, Turns, AtBlockEnd, Sized, Instance;
    FirstBlockEnds(k, x, j, d, [v], r);
    FirstFlipped(k, v, x, j, d, r);
    RestartTurn(k, At(k, 4, 0, 0, x, j, d, [v], r), 0, 0, x, j + {v}, d + {v}, r + 1);
    TurnReaches(k, At(k, 4, 0, 0, x, j, d, [v], r), At(k, 1, 0, 0,
      if 0 in j + {v} then x else x[0 := if k + 4 in d + {v} then k + 4 else -1], j + {v}, d + {v},
      if 0 in j + {v} || k + 4 in d + {v} then [] else [0], r + 1));
  }

  lemma InRange(k: nat, v: nat, u: nat)
    requires v in {0, 1} && u !in Range(4, k + 4)
    ensures u !in Ins(k, v)
  {
  }

  /** A pass over the first block without distractions ends, and the next block begins with vertex 4. */
  lemma FirstSettles(k: nat, x: seq<int>, j: set<nat>, d: set<nat>, r: nat)
    requires k > 0 && |x| == k + 6 && 4 !in j && 2 !in d && 3 !in d && 4 !in d
    ensures Reaches(k, At(k, 4, 0, 0, x, j, d, [], r), At(k, 5, 4, 1, x[4 := -1], j + {1, 2, 3}, d, [4], r))
  {
    var s := At(k, 4, 0, 0, x, j, d, [], r);
    var u := At(k, 4, 4, 1, x, j + {1, 2, 3}, d, [], r);
    FirstBlockEnds(k, x, j, d, [], r);
    SettledAt(k, x, j, d, r);
    Choices(k, d, 4);
    hide JustifyBlock, Game.Valid, Family, Down, Solved, Bits, FirstGood, OneStep, Outs, Ins, Reaches;
    assert EndBlock(Family(k), Solved(k), s).i == 4;
    assert NextBlock(Family(k), JustifyBlock(Family(k), Solved(k), s)) == u;
    assert Step(Family(k), Solved(k), s) == Running(Evaluate(Family(k), Solved(k), u));
    TurnReaches(k, s, At(k, 5, 4, 1, x[4 := -1], j + {1, 2, 3}, d, [4], r));
  }

  lemma SettledAt(k: nat, x: seq<int>, j: set<nat>, d: set<nat>, r: nat)
    requires k > 0 && |x| == k + 6 && Sized(Family(k), At(k, 4, 0, 0, x, j, d, [], r))
    ensures JustifyBlock(Family(k), Solved(k), At(k, 4, 0, 0, x, j, d, [], r)) == At(k, 4, 0, 0, x, j + {1, 2, 3}, d, [], r)
  {
    hide Family, Sized;
  }

  // ---------------------------------------------------------------------------------------------------------
  // The block that needs the stack
  // ---------------------------------------------------------------------------------------------------------

  function Up(a: nat, b: nat): (s: seq<nat>)
    requires a <= b
    ensures |s| == b - a && forall m :: 0 <= m < |s| ==> s[m] == a + m
    ensures forall v :: v in s <==> a <= v < b
    decreases b - a
  {
    if a == b then [] else Up(a, b - 1) + [b - 1]
  }

  /** The strategies once vertices 4 to `i - 1` have been evaluated. */
  function Drawing(k: nat, x: seq<int>, i: nat): (y: seq<int>)
    requires |x| == k + 6
    ensures |y| == k + 6
    ensures forall v :: 0 <= v < k + 6 ==> y[v] == if 4 <= v < i && v < k + 5 then (if v == k + 4 then 2 else -1) else x[v]
  {
    seq(k + 6, v requires 0 <= v < k + 6 => if 4 <= v < i && v < k + 5 then (if v == k + 4 then 2 else -1) else x[v])
  }

  lemma {:induction false} ScanFamily(k: nat, i: nat, x: seq<int>, j: set<nat>, d: set<nat>, r: nat)
    requires k > 0 && |x| == k + 6 && 5 <= i <= k + 5 && x[4] == -1
    requires j !! Range(4, k + 5) && 2 !in d && 3 !in d && 4 !in d
    ensures Reaches(k, At(k, 5, 4, 1, x, j, d, [4], r), At(k, i, 4, 1, Drawing(k, x, i), j, d, Up(4, i), r))
    decreases i
  {
    hide At, Reaches, Turns;
    var s := At(k, 5, 4, 1, x, j, d, [4], r);
    if i == 5 {
      assert Drawing(k, x, 5) == x && Up(4, 5) == [4];
      Here(k, x, j, d, r);
    } else {
      var v := i - 1;
      ScanFamily(k, v, x, j, d, r);
      FamilyTurn(k, v, x, j, d, r);
      TurnReaches(k, At(k, v, 4, 1, Drawing(k, x, v), j, d, Up(4, v), r), At(k, i, 4, 1, Drawing(k, x, i), j, d, Up(4, i), r));
      ReachesTrans(k, s, At(k, v, 4, 1, Drawing(k, x, v), j, d, Up(4, v), r), At(k, i, 4, 1, Drawing(k, x, i), j, d, Up(4, i), r));
    }
  }

  lemma Here(k: nat, x: seq<int>, j: set<nat>, d: set<nat>, r: nat)
    requires k > 0 && |x| == k + 6
    ensures Reaches(k, At(k, 5, 4, 1, x, j, d, [4], r), At(k, 5, 4, 1, x, j, d, [4], r))
  {
    FamilyInstance(k);
    hide Game.Valid, Family, Solved, Step;
    var s := At(k, 5, 4, 1, x, j, d, [4], r);
    assert Run(Family(k), Solved(k), s, 0) == Running(s);
  }

  lemma FamilyTurn(k: nat, v: nat, x: seq<int>, j: set<nat>, d: set<nat>, r: nat)
    requires k > 0 && |x| == k + 6 && 5 <= v < k + 5
    requires j !! Range(4, k + 5) && 2 !in d && 3 !in d && 4 !in d
    ensures Turns(k, At(k, v, 4, 1, Drawing(k, x, v), j, d, Up(4, v), r), At(k, v + 1, 4, 1, Drawing(k, x, v + 1), j, d, Up(4, v + 1), r))
  {
    hide Turns, FirstGood, OneStep, At;
    ScanTurn(k, v, 4, 1, Drawing(k, x, v), j, d, Up(4, v), r);
    Choices(k, d, v);
    assert Drawing(k, x, v)[v := if v == k + 4 then 2 else -1] == Drawing(k, x, v + 1);
    assert Up(4, v) + [v] == Up(4, v + 1);
  }

  /** The disabled vertex `k + 5` is skipped. */
  lemma SkipLast(k: nat, x: seq<int>, j: set<nat>, d: set<nat>, r: nat)
    requires k > 0 && |x| == k + 6
    ensures Reaches(k, At(k, k + 5, 4, 1, x, j, d, Up(4, k + 5), r), At(k, k + 6, 4, 1, x, j, d, Up(4, k + 5), r))
  {
    FamilyInstance(k);
    hide Instance, Game.Valid, Family, Down, Solved, Bits, Outs, Ins;
    var s, t := At(k, k + 5, 4, 1, x, j, d, Up(4, k + 5), r), At(k, k + 6, 4, 1, x, j, d, Up(4, k + 5), r);
    assert Turns(k, s, t);
    TurnReaches(k, s, t);
  }

  /** What the strategies are at that moment. */
  ghost predicate Poised(k: nat, x: seq<int>) {
    && |x| == k + 6 && x[0] == -1 && x[1] == 4 && x[2] == -1 && x[3] == -1
    && (forall v :: 4 <= v < k + 4 ==> x[v] == -1) && x[k + 4] == 2
  }

  /** The end of the second block: vertices 4 to `k + 4` are about to flip. */
  function Peak(k: nat, x: seq<int>): State {
    At(k, k + 6, 4, 1, x, {0, 1, 2, 3}, {0, 1}, Up(4, k + 5), 2)
  }

  lemma ToPeak(k: nat, strategy: seq<int>) returns (x: seq<int>)
    requires k > 0 && |strategy| == k + 6
    ensures Poised(k, x) && Reaches(k, Initial(Family(k), strategy), Peak(k, x))
  {
    hide Reaches, At;
    var s, s0 := Initial(Family(k), strategy), strategy;
    Start(k, s0);
    var s1 := Passed(s0, {});
    ScanFirst(k, s0, {}, {}, [], 0);
    assert [] + [1] == [1];
    ReachesTrans(k, s, At(k, 1, 0, 0, s0, {}, {}, [], 0), At(k, 4, 0, 0, s1, {}, {}, [1], 0));
    var s2 := s1[0 := -1];
    FirstFlip(k, 1, s1, {}, {}, 0);
    assert {} + {1} == {1};
    ReachesTrans(k, s, At(k, 4, 0, 0, s1, {}, {}, [1], 0), At(k, 1, 0, 0, s2, {1}, {1}, [0], 1));
    var s3 := Passed(s2, {1});
    ScanFirst(k, s2, {1}, {1}, [0], 1);
    ReachesTrans(k, s, At(k, 1, 0, 0, s2, {1}, {1}, [0], 1), At(k, 4, 0, 0, s3, {1}, {1}, [0], 1));
    FirstFlip(k, 0, s3, {1}, {1}, 1);
    assert {1} + {0} == {0, 1};
    ReachesTrans(k, s, At(k, 4, 0, 0, s3, {1}, {1}, [0], 1), At(k, 1, 0, 0, s3, {0, 1}, {0, 1}, [], 2));
    var s4 := Passed(s3, {0, 1});
    ScanFirst(k, s3, {0, 1}, {0, 1}, [], 2);
    ReachesTrans(k, s, At(k, 1, 0, 0, s3, {0, 1}, {0, 1}, [], 2), At(k, 4, 0, 0, s4, {0, 1}, {0, 1}, [], 2));
    var s5 := s4[4 := -1];
    FirstSettles(k, s4, {0, 1}, {0, 1}, 2);
    assert {0, 1} + {1, 2, 3} == {0, 1, 2, 3};
    ReachesTrans(k, s, At(k, 4, 0, 0, s4, {0, 1}, {0, 1}, [], 2), At(k, 5, 4, 1, s5, {0, 1, 2, 3}, {0, 1}, [4], 2));
    x := Drawing(k, s5, k + 5);
    ScanFamily(k, k + 5, s5, {0, 1, 2, 3}, {0, 1}, 2);
    ReachesTrans(k, s, At(k, 5, 4, 1, s5, {0, 1, 2, 3}, {0, 1}, [4], 2),
      At(k, k + 5, 4, 1, x, {0, 1, 2, 3}, {0, 1}, Up(4, k + 5), 2));
    SkipLast(k, x, {0, 1, 2, 3}, {0, 1}, 2);
    ReachesTrans(k, s, At(k, k + 5, 4, 1, x, {0, 1, 2, 3}, {0, 1}, Up(4, k + 5), 2), Peak(k, x));
  }

  lemma PeakEnds(k: nat, x: seq<int>)
    requires k > 0 && Poised(k, x)
    ensures Instance(Family(k), Solved(k)) && Sized(Family(k), Peak(k, x)) && AtBlockEnd(Family(k), Solved(k), Peak(k, x))
    ensures Peak(k, x).q != [] && Marked(Family(k), Peak(k, x)) == Flipping(k, x)
  {
    FamilyInstance(k);
    hide Instance, Game.Valid, Family, Solved, Outs, Ins, Up, Down, Range;
    assert Sized(Family(k), Peak(k, x));
    hide Sized;
    MarkedAt(k, k + 6, 4, 1, x, {0, 1, 2, 3}, {0, 1}, Up(4, k + 5), 2, Range(4, k + 5));
    assert {0, 1, 2, 3} + Range(4, k + 5) == Range(0, k + 5);
    assert Peak(k, x).q[0] == 4;
  }

  /** The state in which the propagation begins. */
  function Flipping(k: nat, x: seq<int>): State {
    At(k, k + 6, 4, 1, x, Range(0, k + 5), {0, 1} + Range(4, k + 5), Up(4, k + 5), 2)
  }

  /** While vertex 0 resets its predecessors, each of them is pushed. */
  lemma {:induction false} EachPushed(k: nat, s: State, m: nat, c: nat)
    requires k > 0 && Sized(Family(k), s) && |s.strategy| == k + 6 && m <= k
    requires forall v :: 4 <= v < k + 4 ==> s.strategy[v] == -1
    requires forall v :: 4 <= v < k + 4 - m ==> s.justified[v]
    requires ResetFits(Family(k), s, 0, m, c)
    ensures |s.q| + (k - m) <= c
    decreases k - m
  {
    hide Outs, Ins;
    var g := Family(k);
    assert g.ins[0] == Down(4, k + 4) by { assert g.ins[0] == Ins(k, 0); ZeroIns(k); }
    if m < k {
      var from := g.ins[0][m];
      assert from == k + 3 - m;
      EachPushed(k, Reset(s, from), m + 1, c);
    }
  }

  lemma ZeroIns(k: nat)
    ensures Ins(k, 0) == Down(4, k + 4)
  {
  }

  /** The propagation needs `2 * k` entries: when vertex 0 is popped, the other `k` flipped vertices are still on the
      stack, and all of them are pushed again. */
  lemma PeakOverruns(k: nat, x: seq<int>, c: nat)
    requires k > 0 && Poised(k, x) && c < 2 * k
    requires Sized(Family(k), Flipping(k, x))
    ensures !StackFits(Family(k), Flipping(k, x), c)
  {
    var g, m := Family(k), Flipping(k, x);
    var r := m.(q := Up(4, k + 4));
    var t := ResetIns(g, r, k + 4, 0);
    PopHighest(k, x);
    hide Family, Down, Bits, Ins, Outs, Range, Sized;
    if StackFits(g, m, c) {
      assert StackFits(g, t, c);
      var u := t.(q := Up(4, k + 4));
      assert t.q[..|t.q| - 1] == Up(4, k + 4);
      assert ResetFits(g, u, 0, 0, c);
      EachPushed(k, u, 0, c);
    }
  }

  /** Vertex `k + 4` is popped first and resets vertex 0. */
  lemma PopHighest(k: nat, x: seq<int>)
    requires k > 0 && Poised(k, x) && Sized(Family(k), Flipping(k, x))
    ensures var m := Flipping(k, x);
      && |m.q| == k + 1 && m.q[|m.q| - 1] == k + 4 && m.q[..|m.q| - 1] == Up(4, k + 4)
      && var t := ResetIns(Family(k), m.(q := Up(4, k + 4)), k + 4, 0);
      && t.q == Up(4, k + 4) + [0] && t.strategy == x && forall v :: 4 <= v < k + 4 ==> t.justified[v]
  {
    var m := Flipping(k, x);
    var r := m.(q := Up(4, k + 4));
    var g := Family(k);
    hide Down, Bits, Outs, Range;
    assert g.ins[k + 4] == Ins(k, k + 4) == [0];
    assert ResetIns(g, Reset(r, 0), k + 4, 1) == Reset(r, 0);
    assert ResetIns(g, r, k + 4, 0) == Reset(r, 0);
  }

  // ---------------------------------------------------------------------------------------------------------
  // The end of the run
  // ---------------------------------------------------------------------------------------------------------

  lemma PeakSupports(k: nat, x: seq<int>, v: nat, w: nat)
    requires k > 0 && Poised(k, x) && Family(k).Valid() && v < k + 6 && w < k + 6
    ensures v == 0 && w == k + 4 ==> Supports(Family(k), x, v, w)
    ensures 4 <= v < k + 4 && w == 0 ==> Supports(Family(k), x, v, w)
    ensures v == 1 && w == 4 ==> Supports(Family(k), x, v, w)
    ensures v in {2, 3, k + 4} && w != 2 && w != 3 ==> !Supports(Family(k), x, v, w)
  {
    hide Game.Valid, Family, Down;
    assert Family(k).outs[v] == Outs(k, v);
  }

  /** What rests on vertex `k + 4` is reset: vertex 0, the vertices from 4 on, and vertex 1. */
  lemma PeakGone(k: nat, x: seq<int>)
    requires k > 0 && Poised(k, x) && Family(k).Valid() && Sized(Family(k), Flipping(k, x))
    ensures var m := Flipping(k, x); var t := Propagate(Family(k), m);
      && Retracted(Family(k), m, t) && t.i == 0
      && !t.justified[0] && !t.justified[1] && forall v :: 4 <= v < k + 4 ==> !t.justified[v]
  {
    var g, m := Family(k), Flipping(k, x);
    var t := Propagate(g, m);
    PropagateMeaning(g, m);
    hide Propagate, Family, Game.Valid, Sized, Supports, Up, Down;
    PeakSupports(k, x, 0, k + 4);
    assert k + 4 in m.q;
    assert Gone(m.justified, t.justified, 0);
    forall v: nat | 4 <= v < k + 4 ensures !t.justified[v] { PeakSupports(k, x, v, 0); }
    PeakSupports(k, x, 1, 4);
    assert Gone(m.justified, t.justified, 4);
  }

  /** Vertices 0 and 1 and those from 4 to `b - 1`. */
  function Fallen(b: nat): (r: set<nat>)
    requires b >= 4
    ensures forall v: nat :: v in r <==> v < 2 || 4 <= v < b
  {
    Range(0, 2) + Range(4, b)
  }

  lemma FallenRest(k: nat, x: seq<int>, v: nat, w: nat)
    requires k > 0 && Poised(k, x) && Family(k).Valid() && v < k + 5 && w in Fallen(k + 5) && Supports(Family(k), x, v, w)
    ensures v in Fallen(k + 4)
  {
    hide Family, Game.Valid, Supports, Fallen;
    PeakSupports(k, x, v, w);
  }

  /** Vertices 2, 3 and `k + 4` rest on none of these. */
  lemma PeakStays(k: nat, x: seq<int>)
    requires k > 0 && Poised(k, x) && Family(k).Valid() && Sized(Family(k), Flipping(k, x))
    ensures forall v :: Gone(Flipping(k, x).justified, Propagate(Family(k), Flipping(k, x)).justified, v) ==> v in Fallen(k + 4)
  {
    var g, m := Family(k), Flipping(k, x);
    hide Propagate, Family, Game.Valid, Sized, Supports, Up, Down, Range, Fallen;
    forall v, w | 0 <= v < g.Size() && m.justified[v] && w in Fallen(k + 5) && Supports(g, m.strategy, v, w) ensures v in Fallen(k + 4) {
      FallenRest(k, x, v, w);
    }
    forall v | v in m.q ensures v in Fallen(k + 5) { }
    assert Fallen(k + 4) <= Fallen(k + 5);
    PropagateWithin(g, m, Fallen(k + 5), Fallen(k + 4));
  }

  lemma PeakBits(k: nat, x: seq<int>)
    requires k > 0 && Poised(k, x) && Family(k).Valid() && Sized(Family(k), Flipping(k, x))
    ensures var t := Propagate(Family(k), Flipping(k, x));
      t.justified == Bits(k, {2, 3, k + 4}) && t.distraction == Bits(k, {k + 4}) && t.i == 0
  {
    hide Propagate, Family, Game.Valid, Supports, Up, Down, Range, Fallen;
    PeakGone(k, x);
    PeakStays(k, x);
    var m, t := Flipping(k, x), Propagate(Family(k), Flipping(k, x));
    forall v: nat | v < k + 6 ensures t.justified[v] == (v in {2, 3, k + 4}) && t.distraction[v] == (v in {k + 4}) {
      assert m.justified[v] == (v < k + 5);
      if v in {2, 3, k + 4} { assert v !in Fallen(k + 4) && !Gone(m.justified, t.justified, v); }
    }
    assert t.justified == Bits(k, {2, 3, k + 4}) && t.distraction == Bits(k, {k + 4});
  }

  /** The flip of vertices 4 to `k + 4` resets vertex 0, and with it all of them but vertex `k + 4`. */
  lemma PeakAfter(k: nat, x: seq<int>) returns (r: nat)
    requires k > 0 && Poised(k, x)
    ensures Instance(Family(k), Solved(k)) && Sized(Family(k), Peak(k, x))
    ensures EndBlock(Family(k), Solved(k), Peak(k, x)) == At(k, 0, 4, 1, x, {2, 3, k + 4}, {k + 4}, [], r)
  {
    PeakEnds(k, x);
    PeakBits(k, x);
    r := Propagate(Family(k), Flipping(k, x)).iterations + 1;
    hide Propagate, Marked, Family, Solved, Bits, Up, Range, Instance, Game.Valid, Sized;
  }

  /** Vertex 0 is not queued again before the second block begins. */
  lemma ToEnd(k: nat, x: seq<int>) returns (y: seq<int>, r: nat)
    requires k > 0 && Poised(k, x)
    ensures |y| == k + 6 && Reaches(k, Peak(k, x), At(k, 5, 4, 1, y, {1, 2, 3, k + 4}, {1, k + 4}, [4], r))
  {
    hide Reaches, At, EndBlock, Turns, Sized, AtBlockEnd;
    PeakEnds(k, x);
    var r0 := PeakAfter(k, x);
    var s, j, d := Peak(k, x), {2, 3, k + 4}, {k + 4};
    var x0 := x[0 := k + 4];
    RestartTurn(k, s, 4, 1, x, j, d, r0);
    TurnReaches(k, s, At(k, 1, 0, 0, x0, j, d, [], r0));
    var x1 := Passed(x0, j);
    ScanFirst(k, x0, j, d, [], r0);
    assert [] + [1] == [1];
    ReachesTrans(k, s, At(k, 1, 0, 0, x0, j, d, [], r0), At(k, 4, 0, 0, x1, j, d, [1], r0));
    var j', d' := j + {1}, d + {1};
    var x2 := x1[0 := k + 4];
    FirstFlip(k, 1, x1, j, d, r0);
    ReachesTrans(k, s, At(k, 4, 0, 0, x1, j, d, [1], r0), At(k, 1, 0, 0, x2, j', d', [], r0 + 1));
    var x3 := Passed(x2, j');
    ScanFirst(k, x2, j', d', [], r0 + 1);
    ReachesTrans(k, s, At(k, 1, 0, 0, x2, j', d', [], r0 + 1), At(k, 4, 0, 0, x3, j', d', [], r0 + 1));
    y, r := x3[4 := -1], r0 + 1;
    FirstSettles(k, x3, j', d', r);
    assert j' + {1, 2, 3} == {1, 2, 3, k + 4} && d' == {1, k + 4};
    ReachesTrans(k, s, At(k, 4, 0, 0, x3, j', d', [], r), At(k, 5, 4, 1, y, {1, 2, 3, k + 4}, {1, k + 4}, [4], r));
  }

  lemma FamilyEnds(k: nat, strategy: seq<int>)
    requires k > 0 && |strategy| == k + 6
    ensures Instance(Family(k), Solved(k)) && Ends(Family(k), Solved(k), strategy)
  {
    hide Reaches, At, Peak, Ends, Inv, Kept, Run, Step;
    var g, dis, s := Family(k), Solved(k), Initial(Family(k), strategy);
    var x := ToPeak(k, strategy);
    var y, r := ToEnd(k, x);
    var t := At(k, 5, 4, 1, y, {1, 2, 3, k + 4}, {1, k + 4}, [4], r);
    ReachesTrans(k, s, Peak(k, x), t);
    var m := ReachedAfter(k, s, t);
    InitialInv(g, dis, strategy);
    InitialKept(g, dis, strategy);
    RunKept(g, dis, s, m);
    EndAbandoned(k, y, r);
    hide Measure, Abandoned;
    AbandonedFinishes(g, dis, t, Measure(g, t) + 1);
    RunSplit(g, dis, s, m, Measure(g, t) + 1);
    EndsAt(g, dis, strategy, m + (Measure(g, t) + 1));
  }

  lemma ReachedAfter(k: nat, s: State, t: State) returns (m: nat)
    requires k > 0 && Reaches(k, s, t)
    ensures Instance(Family(k), Solved(k)) && Sized(Family(k), s) && Run(Family(k), Solved(k), s, m) == Running(t) && Sized(Family(k), t)
  {
    m :| Run(Family(k), Solved(k), s, m) == Running(t);
    assert Sized(Family(k), Run(Family(k), Solved(k), s, m).s);
  }

  lemma EndAbandoned(k: nat, y: seq<int>, r: nat)
    requires k > 0 && |y| == k + 6 && Instance(Family(k), Solved(k))
    requires Sized(Family(k), At(k, 5, 4, 1, y, {1, 2, 3, k + 4}, {1, k + 4}, [4], r))
    ensures Abandoned(Family(k), Solved(k), At(k, 5, 4, 1, y, {1, 2, 3, k + 4}, {1, k + 4}, [4], r))
  {
  }

  // ---------------------------------------------------------------------------------------------------------
  // What the games show
  // ---------------------------------------------------------------------------------------------------------

  lemma FamilyDraws(k: nat, dis: seq<bool>)
    requires k > 0 && (dis == Solved(k) || dis == Solved(k)[0 := false])
    ensures Instance(Family(k), dis) && OneStep(Family(k), dis, FirstFixpoint(Family(k), dis), 0) == 1
    ensures !dis[0] ==> FirstFixpoint(Family(k), dis)[0]
  {
    FamilyInstance(k);
    EnabledInstance(Family(k), Solved(k));
    hide Game.Valid, Saturation, FirstGood, OneStep, Family, Solved, Outs, Ins;
    SaturationCloses(Family(k), dis, AllFalse(k + 6));
    FirstFour(k, dis);
    assert !FirstFixpoint(Family(k), dis)[k + 4];
    ZeroMoves(k, dis, FirstFixpoint(Family(k), dis));
  }

  lemma FirstFour(k: nat, dis: seq<bool>)
    requires k > 0 && Instance(Family(k), dis) && !dis[4]
    ensures NextOther(Family(k), dis, 0, Family(k).Parity(0)) == 4
  {
    hide Game.Valid, Family, Outs, Ins;
    var g := Family(k);
    assert NextOther(g, dis, 4, 0) == 4;
    assert NextOther(g, dis, 3, 0) == 4;
    assert NextOther(g, dis, 2, 0) == 4;
    assert NextOther(g, dis, 1, 0) == 4;
  }

  lemma FamilyEntangled(k: nat)
    requires k > 0
    ensures Instance(Family(k), Solved(k)) && Entangled(Family(k), Solved(k))
  {
    hide Benign, Deferring, Stranded, Saturation, FirstGood, OneStep, Family, Solved, Instance, Game.Valid;
    FamilyInstance(k);
    FamilyDraws(k, Solved(k));
    FamilyDraws(k, Solved(k)[0 := false]);
    FamilyNotBenign(k);
    FamilyDepends(k);
    assert Family(k).Parity(0) == 0;
  }

  lemma FamilyNotBenign(k: nat)
    requires k > 0 && Instance(Family(k), Solved(k))
    ensures !Benign(Family(k), Solved(k))
  {
    FirstFour(k, Solved(k));
    Choices(k, {}, 1);
    hide Game.Valid, FirstGood, OneStep, NextOther, Family, Outs, Ins;
    assert AllFalse(k + 6) == Bits(k, {});
    assert 1 in Dom(Solved(k));
  }

  lemma FamilyDepends(k: nat)
    requires k > 0 && Instance(Family(k), Solved(k))
    ensures !Deferring(Family(k), Solved(k)) && !Stranded(Family(k), Solved(k))
  {
    hide Game.Valid, NextOther, Family, Ins;
    assert Family(k).Edge(0, k + 4) && Family(k).Edge(4, 0);
    assert 4 in Dom(Solved(k)) && k + 4 in Dom(Solved(k));
  }

  /** For every `k`, a sound and flushed input of `k + 6` vertices on which the loop is left, but not before a turn that
      needs `2 * k` entries of the stack. The same propagation resets all but one of the vertices that it has just
      flipped. */
  lemma StackOverruns(k: nat, strategy: seq<int>, c: nat) returns (m: nat)
    requires k > 0 && |strategy| == k + 6 && c < 2 * k
    ensures var g, dis := Family(k), Solved(k);
      && g.Size() == k + 6 && Vertices(g) - Dom(dis) == {0, k + 5}
      && PartialSolution(g, {0, k + 5}, Winner(k), Strategy(k)) && AttractorClosed(g, {0, k + 5}, Winner(k))
      && Within(g, Dom(dis)) && NoDeadEnds(g, Dom(dis)) && Instance(g, dis) && Entangled(g, dis)
      && Ends(g, dis, strategy) && Sized(g, Initial(g, strategy)) && Run(g, dis, Initial(g, strategy), m).Running?
    ensures var g, dis, s := Family(k), Solved(k), Run(Family(k), Solved(k), Initial(Family(k), strategy), m).s;
      && AtBlockEnd(g, dis, s) && !StackFits(g, Marked(g, s), c)
      && !RunFits(g, dis, Initial(g, strategy), m + 1, c)
      && forall v :: 4 <= v < k + 4 ==> v in s.q && !EndBlock(g, dis, s).justified[v]
  {
    hide Reaches, At, Peak, Flipping, Ends, Entangled, PartialSolution, AttractorClosed, NoDeadEnds, Run, RunFits, StackFits, Marked, AtBlockEnd, EndBlock, Sized;
    FamilySolved(k);
    FamilyEntangled(k);
    FamilyEnds(k, strategy);
    var x := ToPeak(k, strategy);
    m := ReachedAfter(k, Initial(Family(k), strategy), Peak(k, x));
    PeakEnds(k, x);
    PeakOverrunsHere(k, x, c);
    PeakReset(k, x);
    if RunFits(Family(k), Solved(k), Initial(Family(k), strategy), m + 1, c) {
      RunFitsAt(Family(k), Solved(k), Initial(Family(k), strategy), m, m + 1, c);
    }
  }

  lemma PeakOverrunsHere(k: nat, x: seq<int>, c: nat)
    requires k > 0 && Poised(k, x) && c < 2 * k
    ensures Instance(Family(k), Solved(k)) && Sized(Family(k), Peak(k, x))
    ensures !StackFits(Family(k), Marked(Family(k), Peak(k, x)), c) && !TurnFits(Family(k), Solved(k), Peak(k, x), c)
  {
    PeakEnds(k, x);
    hide Peak, Flipping, StackFits, Marked, AtBlockEnd, Family, Sized;
    PeakOverruns(k, x, c);
  }

  lemma PeakReset(k: nat, x: seq<int>)
    requires k > 0 && Poised(k, x)
    ensures Instance(Family(k), Solved(k)) && Sized(Family(k), Peak(k, x))
    ensures forall v :: 4 <= v < k + 4 ==> v in Peak(k, x).q && !EndBlock(Family(k), Solved(k), Peak(k, x)).justified[v]
  {
    hide EndBlock, Family, Sized, Instance;
    var r := PeakAfter(k, x);
  }

  /** With 13 vertices that is one entry more than the stack has. */
  lemma ThirteenVertices(strategy: seq<int>) returns (m: nat)
    requires |strategy| == 13
    ensures var g, dis := Family(7), Solved(7);
      && g.Size() == 13 && PartialSolution(g, {0, 12}, Winner(7), Strategy(7)) && AttractorClosed(g, {0, 12}, Winner(7))
      && Within(g, Dom(dis)) && NoDeadEnds(g, Dom(dis)) && Instance(g, dis) && Entangled(g, dis) && Ends(g, dis, strategy)
      && Sized(g, Initial(g, strategy)) && Run(g, dis, Initial(g, strategy), m).Running?
      && !StackFits(g, Marked(g, Run(g, dis, Initial(g, strategy), m).s), g.Size())
  {
    hide Ends, Entangled, PartialSolution, AttractorClosed, NoDeadEnds, Run, RunFits, StackFits, Marked, AtBlockEnd, EndBlock, Sized;
    m := StackOverruns(7, strategy, 13);
  }
}
