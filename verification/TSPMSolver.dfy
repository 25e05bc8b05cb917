/** Lifting progress measures for both players (TSPMSolver::pm_less, Prog, lift). The bounds on the digits shrink while
    the solver runs; what never shrinks is the measure of a vertex. */
module TSPMSolver {
  import opened ParityGames
  import opened ProgressMeasures

  // ---------------------------------------------------------------------------------------------------------
  // Carrying from digit to digit
  // ---------------------------------------------------------------------------------------------------------

  /** The carry that reaches digit `i` when `carry` enters at digit `f`. */
  function CarryAt(c: seq<int>, a: seq<int>, f: nat, carry: nat, i: nat): (r: nat)
    requires |a| == |c| && carry <= 1 && i % 2 == f % 2
    ensures r <= 1
    decreases i
  {
    if i <= f || i - 2 >= |c| then carry else if a[i - 2] + CarryAt(c, a, f, carry, i - 2) > c[i - 2] then 1 else 0
  }

  function NewDigit(c: seq<int>, a: seq<int>, f: nat, carry: nat, i: nat): int
    requires |a| == |c| && carry <= 1 && i % 2 == f % 2 && i < |c|
  {
    var v := a[i] + CarryAt(c, a, f, carry, i);
    if v > c[i] then 0 else v
  }

  lemma {:induction false} DigitsAdd(c: seq<int>, a: seq<int>, t: seq<int>, f: nat, carry: nat, i: nat)
    requires |a| == |t| == |c| && carry <= 1 && f <= i && i % 2 == f % 2 && (i < |c| + 2 || i == f)
    requires forall j: nat :: f <= j < |c| && j % 2 == f % 2 ==> t[j] == NewDigit(c, a, f, carry, j)
    ensures Added(c, a, t, i, CarryAt(c, a, f, carry, i))
    decreases |c| + 2 - i
  {
    if i < |c| { DigitsAdd(c, a, t, f, carry, i + 2); }
  }

  lemma {:induction false} CarryEnds(c: seq<int>, a: seq<int>, f: nat, carry: nat, i: nat)
    requires |a| == |c| && carry <= 1 && f <= i && i % 2 == f % 2 && (i < |c| + 2 || i == f)
    ensures CarryOut(c, a, i, CarryAt(c, a, f, carry, i)) == CarryOut(c, a, f, carry)
    decreases i
  {
    if f < i { CarryEnds(c, a, f, carry, i - 2); }
  }

  lemma NoDigitsLeft(c: seq<int>, a: seq<int>, i: nat, carry: nat)
    requires |a| == |c| <= i && carry <= 1
    ensures CarryOut(c, a, i, carry) == carry
  {
  }

  lemma {:induction false} AllZero(t: seq<int>, i: nat, f: nat)
    requires f <= |t| + 1 && forall j: nat :: i <= j < f && j < |t| && j % 2 == i % 2 ==> t[j] == 0
    ensures ZeroBelow(t, i, f)
    decreases f - i
  {
    if i < f { AllZero(t, i + 2, f); }
  }

  lemma {:induction false} AllSame(a: seq<int>, b: seq<int>, i: nat)
    requires |a| == |b| && forall j: nat :: i <= j < |a| && j % 2 == i % 2 ==> a[j] == b[j]
    ensures SameFrom(a, b, i)
    decreases |a| - i
  {
    if i < |a| { AllSame(a, b, i + 2); }
  }

  // ---------------------------------------------------------------------------------------------------------
  // Vertices that are not yet Top
  // ---------------------------------------------------------------------------------------------------------

  /** The measure of `v`, as it was: the first `|rows|` rows of digits. */
  predicate OpenAt(g: Game, dis: seq<bool>, rows: seq<seq<int>>, d: nat, v: nat)
    requires v < |dis| == |rows| == g.Size() && |rows[v]| >= 2
  {
    !dis[v] && g.priority[v] == d && !IsTop(rows[v], d % 2)
  }

  /** The vertices of priority `d` whose measure for the player of `d` is not Top, among the first `n`. */
  function Open(g: Game, dis: seq<bool>, rows: seq<seq<int>>, d: nat, n: nat): (r: nat)
    requires |dis| == |rows| == g.Size() && n <= g.Size() && forall v :: 0 <= v < g.Size() ==> |rows[v]| >= 2
  {
    if n == 0 then 0 else Open(g, dis, rows, d, n - 1) + if OpenAt(g, dis, rows, d, n - 1) then 1 else 0
  }

  /** Changing the row of one vertex changes the count by that vertex. */
  lemma {:induction false} OpenChange(g: Game, dis: seq<bool>, s: seq<seq<int>>, t: seq<seq<int>>, d: nat, n: nat, v: nat)
    requires |dis| == |s| == |t| == g.Size() && n <= g.Size() && v < g.Size()
    requires forall u :: 0 <= u < g.Size() ==> |s[u]| >= 2 && |t[u]| >= 2
    requires forall u :: 0 <= u < g.Size() && u != v ==> s[u] == t[u]
    ensures Open(g, dis, s, d, n) - (if v < n && OpenAt(g, dis, s, d, v) then 1 else 0)
         == Open(g, dis, t, d, n) - (if v < n && OpenAt(g, dis, t, d, v) then 1 else 0)
  {
    if n > 0 { OpenChange(g, dis, s, t, d, n - 1, v); }
  }

  // ---------------------------------------------------------------------------------------------------------
  // The solver
  // ---------------------------------------------------------------------------------------------------------

  /** `row` is at least what Prog makes of `src`. */
  ghost predicate AtLeast(c: seq<int>, c0: seq<int>, row: seq<int>, src: seq<int>, d: nat, pl: Player)
    requires Bounds(c0) && |row| == |src| == |c| == |c0| && d < |c| && Measure(c0, row, pl)
  {
    forall t: seq<int> :: |t| == |c| && Progressed(c, src, t, d, pl) && Measure(c0, t, pl) ==> Rank(c0, row, pl, d) >= Rank(c0, t, pl, d)
  }

  /** `row` is exactly what Prog makes of `src`. */
  ghost predicate Exactly(c: seq<int>, row: seq<int>, src: seq<int>, d: nat, pl: Player)
    requires |row| == |src| == |c| >= 2 && d < |c|
  {
    Progressed(c, src, row, d, pl)
  }

  lemma AtLeastOne(c: seq<int>, c0: seq<int>, row: seq<int>, src: seq<int>, t: seq<int>, d: nat, pl: Player)
    requires Bounds(c0) && |row| == |src| == |t| == |c| == |c0| && d < |c| && Measure(c0, row, pl) && Measure(c0, t, pl)
    requires Progressed(c, src, t, d, pl) && Rank(c0, row, pl, d) >= Rank(c0, t, pl, d)
    ensures AtLeast(c, c0, row, src, d, pl)
  {
    forall u: seq<int> | |u| == |c| && Progressed(c, src, u, d, pl) && Measure(c0, u, pl)
      ensures Rank(c0, row, pl, d) >= Rank(c0, u, pl, d)
    {
      ProgUnique(c, src, t, u, d, pl);
      SameRank(c0, t, u, pl, d);
    }
  }

  lemma AtLeastMore(c: seq<int>, c0: seq<int>, row: seq<int>, row': seq<int>, src: seq<int>, d: nat, pl: Player)
    requires Bounds(c0) && |row| == |row'| == |src| == |c| == |c0| && d < |c| && Measure(c0, row, pl) && Measure(c0, row', pl)
    requires AtLeast(c, c0, row, src, d, pl) && Rank(c0, row', pl, d) >= Rank(c0, row, pl, d)
    ensures AtLeast(c, c0, row', src, d, pl)
  {
  }

  lemma {:induction false} AddedCopied(c: seq<int>, a: seq<int>, t: seq<int>, u: seq<int>, i: nat, carry: nat)
    requires |a| == |t| == |u| == |c| && carry <= 1 && Added(c, a, t, i, carry)
    requires forall j: nat :: i <= j < |c| && j % 2 == i % 2 ==> u[j] == t[j]
    ensures Added(c, a, u, i, carry)
    decreases |c| - i
  {
    if i < |c| { AddedCopied(c, a, t, u, i + 2, if a[i] + carry > c[i] then 1 else 0); }
  }

  lemma {:induction false} ZeroCopied(t: seq<int>, u: seq<int>, i: nat, f: nat)
    requires |t| == |u| && f <= |t| + 1 && ZeroBelow(t, i, f)
    requires forall j: nat :: i <= j < |t| && j % 2 == i % 2 ==> u[j] == t[j]
    ensures ZeroBelow(u, i, f)
    decreases f - i
  {
    if i < f && i < |t| { ZeroCopied(t, u, i + 2, f); }
  }

  /** What Prog did shows in the digits of the player alone. */
  lemma ProgressedCopied(c: seq<int>, a: seq<int>, t: seq<int>, u: seq<int>, d: nat, pl: Player)
    requires |a| == |t| == |u| == |c| >= 2 && d < |c| && Progressed(c, a, t, d, pl)
    requires forall j: nat :: j < |c| && j % 2 == pl ==> u[j] == t[j]
    ensures Progressed(c, a, u, d, pl) && SameMeasure(t, u, pl)
  {
    var f, carry := First(d, pl), if d % 2 == pl then 1 else 0;
    AllSame(t, u, pl);
    if !(IsTop(a, pl) || CarryOut(c, a, f, carry) == 1) {
      ZeroCopied(t, u, pl, f);
      AddedCopied(c, a, t, u, f, carry);
    }
  }

  /** The other player's measure does not notice. */
  lemma OtherKept(c0: seq<int>, s: seq<int>, t: seq<int>, pl: Player, d: nat)
    requires Bounds(c0) && |s| == |t| == |c0| && OnlyPlayer(s, t, 1 - pl) && Measure(c0, s, pl)
    ensures Measure(c0, t, pl) && Rank(c0, t, pl, d) == Rank(c0, s, pl, d) && (IsTop(t, pl) <==> IsTop(s, pl))
  {
    AllSame(s, t, pl);
    SameRank(c0, s, t, pl, d);
  }

  /** How the measure of a vertex may change: `t` is the new row. */
  ghost predicate Raised(c0: seq<int>, s: seq<int>, t: seq<int>, pl: Player, d: nat)
    requires Bounds(c0) && |s| == |t| == |c0| && Measure(c0, s, pl) && Measure(c0, t, pl)
  {
    Rank(c0, s, pl, d) < Rank(c0, t, pl, d) && Rank(c0, s, pl, 0) < Rank(c0, t, pl, 0)
  }

  lemma RaisedTwice(c0: seq<int>, r: seq<int>, s: seq<int>, t: seq<int>, pl: Player, d: nat)
    requires Bounds(c0) && |r| == |s| == |t| == |c0| && Measure(c0, r, pl) && Measure(c0, s, pl) && Measure(c0, t, pl)
    requires r == s || Raised(c0, r, s, pl, d)
    requires s == t || Raised(c0, s, t, pl, d)
    ensures r == t || Raised(c0, r, t, pl, d)
  {
  }

  /** `b` is at most what Prog makes of `src`. */
  ghost predicate AtMost(c: seq<int>, c0: seq<int>, b: seq<int>, src: seq<int>, d: nat, pl: Player)
    requires Bounds(c0) && |b| == |src| == |c| == |c0| && d < |c| && Measure(c0, b, pl)
  {
    forall t: seq<int> :: |t| == |c| && Progressed(c, src, t, d, pl) && Measure(c0, t, pl) ==> Rank(c0, b, pl, d) <= Rank(c0, t, pl, d)
  }

  lemma AtMostOne(c: seq<int>, c0: seq<int>, b: seq<int>, src: seq<int>, t: seq<int>, d: nat, pl: Player)
    requires Bounds(c0) && |b| == |src| == |t| == |c| == |c0| && d < |c| && Measure(c0, b, pl) && Measure(c0, t, pl)
    requires Progressed(c, src, t, d, pl) && Rank(c0, b, pl, d) <= Rank(c0, t, pl, d)
    ensures AtMost(c, c0, b, src, d, pl)
  {
    forall u: seq<int> | |u| == |c| && Progressed(c, src, u, d, pl) && Measure(c0, u, pl)
      ensures Rank(c0, b, pl, d) <= Rank(c0, u, pl, d)
    {
      ProgUnique(c, src, t, u, d, pl);
      SameRank(c0, t, u, pl, d);
    }
  }

  lemma AtMostLess(c: seq<int>, c0: seq<int>, b: seq<int>, b': seq<int>, src: seq<int>, d: nat, pl: Player)
    requires Bounds(c0) && |b| == |b'| == |src| == |c| == |c0| && d < |c| && Measure(c0, b, pl) && Measure(c0, b', pl)
    requires AtMost(c, c0, b, src, d, pl) && Rank(c0, b', pl, d) <= Rank(c0, b, pl, d)
    ensures AtMost(c, c0, b', src, d, pl)
  {
  }

  /** A row that was raised for `pl`, or left alone. */
  ghost predicate Lifted(c0: seq<int>, s: seq<int>, t: seq<int>, pl: Player, d: nat, raised: bool) {
    && Bounds(c0) && |s| == |t| == |c0| && Measure(c0, s, pl) && Measure(c0, t, pl)
    && OnlyPlayer(s, t, pl)
    && if raised then Raised(c0, s, t, pl, d) else s == t
  }

  lemma LiftedStart(c0: seq<int>, s: seq<int>, pl: Player, d: nat)
    requires Bounds(c0) && |s| == |c0| && Measure(c0, s, pl)
    ensures Lifted(c0, s, s, pl, d, false)
  {
  }

  lemma LiftedRank(c0: seq<int>, s: seq<int>, t: seq<int>, pl: Player, d: nat, raised: bool)
    requires Lifted(c0, s, t, pl, d, raised)
    ensures Bounds(c0) && |s| == |t| == |c0| && Measure(c0, s, pl) && Measure(c0, t, pl)
    ensures Rank(c0, t, pl, d) >= Rank(c0, s, pl, d) && Rank(c0, t, pl, 0) >= Rank(c0, s, pl, 0)
    ensures raised <==> Rank(c0, t, pl, 0) > Rank(c0, s, pl, 0)
    ensures !raised ==> s == t
  {
  }

  lemma LiftedMore(c0: seq<int>, r: seq<int>, s: seq<int>, t: seq<int>, pl: Player, d: nat, first: bool, raised: bool)
    requires Lifted(c0, r, s, pl, d, first) && Lifted(c0, s, t, pl, d, raised)
    ensures Lifted(c0, r, t, pl, d, first || raised)
  {
    RaisedTwice(c0, r, s, t, pl, d);
  }

  /** On the way from `s` to `t`, the row was `mid`, and `u`, which Prog made of it, is met by `t`. */
  ghost predicate SelfDemand(c: seq<int>, c0: seq<int>, s: seq<int>, mid: seq<int>, u: seq<int>, t: seq<int>, d: nat, pl: Player) {
    && Bounds(c0) && |s| == |mid| == |u| == |t| == |c| == |c0| && d < |c|
    && Measure(c0, s, pl) && Measure(c0, mid, pl) && Measure(c0, u, pl) && Measure(c0, t, pl)
    && Progressed(c, mid, u, d, pl)
    && Rank(c0, s, pl, d) <= Rank(c0, mid, pl, d) <= Rank(c0, t, pl, d)
    && Rank(c0, u, pl, d) <= Rank(c0, t, pl, d)
  }

  /** The demand that a vertex makes on itself, by a self-loop, is met: that of its row when the self-loop was looked at. */
  ghost predicate SelfMet(c: seq<int>, c0: seq<int>, s: seq<int>, t: seq<int>, d: nat, pl: Player) {
    exists mid, u :: SelfDemand(c, c0, s, mid, u, t, d, pl)
  }

  /** The last raise was due to the self-loop. */
  ghost predicate SelfExactly(c: seq<int>, c0: seq<int>, s: seq<int>, t: seq<int>, d: nat, pl: Player) {
    exists mid :: SelfDemand(c, c0, s, mid, t, t, d, pl)
  }

  lemma SelfMetMore(c: seq<int>, c0: seq<int>, s: seq<int>, t: seq<int>, t': seq<int>, d: nat, pl: Player)
    requires SelfMet(c, c0, s, t, d, pl) && |t'| == |c| && Bounds(c0) && |t| == |c| == |c0| && Measure(c0, t, pl)
    requires Measure(c0, t', pl) && Rank(c0, t', pl, d) >= Rank(c0, t, pl, d)
    ensures SelfMet(c, c0, s, t', d, pl)
  {
    hide Progressed, Measure, Rank;
    var mid, u :| SelfDemand(c, c0, s, mid, u, t, d, pl);
    assert SelfDemand(c, c0, s, mid, u, t', d, pl);
  }

  /** A self-loop of a vertex whose owner has the parity of its priority demands more than its measure is. */
  lemma SelfRises(c: seq<int>, c0: seq<int>, s: seq<int>, t: seq<int>, d: nat, pl: Player)
    requires SelfMet(c, c0, s, t, d, pl) && d % 2 == pl && Bounds(c) && |c| == |c0| && forall i :: 0 <= i < |c| ==> c[i] <= c0[i]
    requires Bounds(c0) && |s| == |t| == |c0| && Measure(c0, s, pl) && Measure(c0, t, pl) && !IsTop(s, pl)
    ensures Rank(c0, s, pl, d) < Rank(c0, t, pl, d)
  {
    hide Progressed, Measure, Rank;
    var mid, u :| SelfDemand(c, c0, s, mid, u, t, d, pl);
    ProgRises(c, c0, mid, u, d, pl);
    if IsTop(u, pl) { TopAbove(c0, s, u, pl, d); }
  }

  /** One step of the maximum that looks at the self-loop. */
  lemma SelfStep(c: seq<int>, c0: seq<int>, start: seq<int>, before: seq<int>, u: seq<int>, after: seq<int>, d: nat, pl: Player,
                 first: bool, raised: bool)
    requires SelfDemand(c, c0, before, before, u, after, d, pl) && Lifted(c0, start, before, pl, d, first)
    requires raised ==> Exactly(c, after, before, d, pl)
    ensures SelfMet(c, c0, start, after, d, pl) && (raised ==> SelfExactly(c, c0, start, after, d, pl))
  {
    LiftedRank(c0, start, before, pl, d, first);
    hide Progressed, Measure, Rank, Lifted;
    assert SelfDemand(c, c0, start, before, u, after, d, pl);
    if raised { assert SelfDemand(c, c0, start, before, after, after, d, pl); }
  }

  /** A row that meets the demand of the self-loop has been raised. */
  lemma SelfRaised(c: seq<int>, c0: seq<int>, s: seq<int>, t: seq<int>, d: nat, pl: Player, raised: bool)
    requires SelfMet(c, c0, s, t, d, pl) && d % 2 == pl && Bounds(c) && |c| == |c0| && forall i :: 0 <= i < |c| ==> c[i] <= c0[i]
    requires Lifted(c0, s, t, pl, d, raised) && |s| >= 2 && !IsTop(s, pl)
    ensures raised
  {
    LiftedRank(c0, s, t, pl, d, raised);
    SelfRises(c, c0, s, t, d, pl);
  }

  lemma TopAbove(c0: seq<int>, s: seq<int>, u: seq<int>, pl: Player, d: nat)
    requires Bounds(c0) && |s| == |u| == |c0| && Measure(c0, s, pl) && Measure(c0, u, pl) && !IsTop(s, pl) && IsTop(u, pl)
    ensures Rank(c0, s, pl, d) < Rank(c0, u, pl, d)
  {
    RangeAbove(c0, s, pl, First(d, pl));
    NumberBelow(c0, s, First(d, pl));
  }

  /** `row` meets the demands of the enabled successors of `node` before position `n`. */
  ghost predicate Meets(g: Game, dis: seq<bool>, c: seq<int>, c0: seq<int>, rows: seq<seq<int>>, row: seq<int>, node: nat, n: nat) {
    && g.Valid() && |dis| == |rows| == g.Size() && node < g.Size() && n <= |g.outs[node]| && g.priority[node] < |c| == |c0|
    && Bounds(c0) && |row| == |c| && Measure(c0, row, g.owner[node]) && (forall v :: 0 <= v < |rows| ==> |rows[v]| == |c|)
    && forall j: nat :: j < n && !dis[g.outs[node][j]] ==> Meeting(g, c, c0, rows, row, node, g.outs[node][j])
  }

  ghost predicate Meeting(g: Game, c: seq<int>, c0: seq<int>, rows: seq<seq<int>>, row: seq<int>, node: nat, to: nat)
    requires g.Valid() && node < g.Size() && to < |rows| && |row| == |rows[to]| == |c| == |c0| && g.priority[node] < |c|
    requires Bounds(c0) && Measure(c0, row, g.owner[node])
  {
    if to == node then SelfMet(c, c0, rows[node], row, g.priority[node], g.owner[node])
    else AtLeast(c, c0, row, rows[to], g.priority[node], g.owner[node])
  }

  lemma MeetingMore(g: Game, c: seq<int>, c0: seq<int>, rows: seq<seq<int>>, row: seq<int>, row': seq<int>, node: nat, to: nat)
    requires g.Valid() && node < g.Size() && to < |rows| && |row| == |row'| == |rows[to]| == |c| == |c0| && g.priority[node] < |c|
    requires Bounds(c0) && Measure(c0, row, g.owner[node]) && Measure(c0, row', g.owner[node])
    requires Rank(c0, row', g.owner[node], g.priority[node]) >= Rank(c0, row, g.owner[node], g.priority[node])
    requires Meeting(g, c, c0, rows, row, node, to)
    ensures Meeting(g, c, c0, rows, row', node, to)
  {
    hide Rank, Measure, AtLeast, SelfMet;
    if to == node {
      SelfMetMore(c, c0, rows[node], row, row', g.priority[node], g.owner[node]);
    } else {
      AtLeastMore(c, c0, row, row', rows[to], g.priority[node], g.owner[node]);
    }
  }

  lemma LoopMet(g: Game, dis: seq<bool>, c: seq<int>, c0: seq<int>, rows: seq<seq<int>>, row: seq<int>, node: nat)
    requires g.Valid() && node < g.Size() && Meets(g, dis, c, c0, rows, row, node, |g.outs[node]|) && g.Edge(node, node) && !dis[node]
    ensures SelfMet(c, c0, rows[node], row, g.priority[node], g.owner[node])
  {
    hide SelfMet, Measure;
    var j :| 0 <= j < |g.outs[node]| && g.outs[node][j] == node;
    assert Meeting(g, c, c0, rows, row, node, g.outs[node][j]);
  }

  lemma MeetsNone(g: Game, dis: seq<bool>, c: seq<int>, c0: seq<int>, rows: seq<seq<int>>, row: seq<int>, node: nat)
    requires g.Valid() && |dis| == |rows| == g.Size() && node < g.Size() && g.priority[node] < |c| == |c0|
    requires Bounds(c0) && |row| == |c| && Measure(c0, row, g.owner[node]) && forall v :: 0 <= v < |rows| ==> |rows[v]| == |c|
    ensures Meets(g, dis, c, c0, rows, row, node, 0)
  {
  }

  lemma MeetsNext(g: Game, dis: seq<bool>, c: seq<int>, c0: seq<int>, rows: seq<seq<int>>, row: seq<int>, row': seq<int>, node: nat, j: nat)
    requires Meets(g, dis, c, c0, rows, row, node, j) && j < |g.outs[node]| && |row'| == |c| && Measure(c0, row', g.owner[node])
    requires Rank(c0, row', g.owner[node], g.priority[node]) >= Rank(c0, row, g.owner[node], g.priority[node])
    requires var to := g.outs[node][j]; !dis[to] ==> Meeting(g, c, c0, rows, row', node, to)
    ensures Meets(g, dis, c, c0, rows, row', node, j + 1)
  {
    hide Meeting, Rank, Measure;
    forall i: nat | i < j + 1 && !dis[g.outs[node][i]] ensures Meeting(g, c, c0, rows, row', node, g.outs[node][i]) {
      if i < j { MeetingMore(g, c, c0, rows, row, row', node, g.outs[node][i]); }
    }
  }

  /** `b` is at most what the enabled successors of `node` before position `n` demand of player `pl`. */
  ghost predicate Lowest(g: Game, dis: seq<bool>, c: seq<int>, c0: seq<int>, rows: seq<seq<int>>, b: seq<int>, node: nat, pl: Player, n: nat) {
    && g.Valid() && |dis| == |rows| == g.Size() && node < g.Size() && n <= |g.outs[node]| && g.priority[node] < |c| == |c0|
    && Bounds(c0) && |b| == |c| && Measure(c0, b, pl) && (forall v :: 0 <= v < |rows| ==> |rows[v]| == |c|)
    && forall j: nat :: j < n && !dis[g.outs[node][j]] ==> AtMost(c, c0, b, rows[g.outs[node][j]], g.priority[node], pl)
  }

  lemma LowestNext(g: Game, dis: seq<bool>, c: seq<int>, c0: seq<int>, rows: seq<seq<int>>, b: seq<int>, b': seq<int>, node: nat, pl: Player, j: nat)
    requires Lowest(g, dis, c, c0, rows, b, node, pl, j) && j < |g.outs[node]| && |b'| == |c| && Measure(c0, b', pl)
    requires Rank(c0, b', pl, g.priority[node]) <= Rank(c0, b, pl, g.priority[node])
    requires var to := g.outs[node][j]; !dis[to] ==> AtMost(c, c0, b', rows[to], g.priority[node], pl)
    ensures Lowest(g, dis, c, c0, rows, b', node, pl, j + 1)
  {
    forall i: nat | i < j + 1 && !dis[g.outs[node][i]] ensures AtMost(c, c0, b', rows[g.outs[node][i]], g.priority[node], pl) {
      if i < j { AtMostLess(c, c0, b, b', rows[g.outs[node][i]], g.priority[node], pl); }
    }
  }

  ghost predicate NoneEnabled(g: Game, dis: seq<bool>, node: nat, n: nat)
    requires g.Valid() && |dis| == g.Size() && node < g.Size() && n <= |g.outs[node]|
  {
    forall j: nat :: j < n ==> dis[g.outs[node][j]]
  }

  lemma LowestStart(g: Game, dis: seq<bool>, c: seq<int>, c0: seq<int>, rows: seq<seq<int>>, b: seq<int>, node: nat, pl: Player, j: nat)
    requires g.Valid() && |dis| == |rows| == g.Size() && node < g.Size() && j < |g.outs[node]| && g.priority[node] < |c| == |c0|
    requires Bounds(c0) && |b| == |c| && Measure(c0, b, pl) && (forall v :: 0 <= v < |rows| ==> |rows[v]| == |c|)
    requires NoneEnabled(g, dis, node, j) && AtMost(c, c0, b, rows[g.outs[node][j]], g.priority[node], pl)
    ensures Lowest(g, dis, c, c0, rows, b, node, pl, j + 1)
  {
  }

  // ---------------------------------------------------------------------------------------------------------
  // Both players
  // ---------------------------------------------------------------------------------------------------------

  predicate SameDigits(s: seq<int>, t: seq<int>, pl: Player) {
    |s| == |t| && forall j :: 0 <= j < |s| && j % 2 == pl ==> t[j] == s[j]
  }

  /** The measure of `pl` was raised, or left alone; the other player's is not considered. */
  ghost predicate LiftedFor(c0: seq<int>, s: seq<int>, t: seq<int>, pl: Player, d: nat, raised: bool) {
    && Bounds(c0) && |s| == |t| == |c0| && Measure(c0, s, pl) && Measure(c0, t, pl)
    && if raised then Raised(c0, s, t, pl, d) else SameDigits(s, t, pl)
  }

  lemma LiftedBoth(c0: seq<int>, s: seq<int>, t: seq<int>, u: seq<int>, pl: Player, d: nat, first: bool, second: bool)
    requires Lifted(c0, s, t, pl, d, first) && Lifted(c0, t, u, 1 - pl, d, second) && Measure(c0, s, 1 - pl)
    ensures LiftedFor(c0, s, u, pl, d, first) && LiftedFor(c0, s, u, 1 - pl, d, second)
    ensures SameDigits(t, u, pl) && SameDigits(s, t, 1 - pl)
  {
    OtherKept(c0, t, u, pl, d);
    OtherKept(c0, t, u, pl, 0);
    OtherKept(c0, s, t, 1 - pl, d);
    OtherKept(c0, s, t, 1 - pl, 0);
  }

  lemma LiftedForRank(c0: seq<int>, s: seq<int>, t: seq<int>, pl: Player, d: nat, raised: bool)
    requires LiftedFor(c0, s, t, pl, d, raised)
    ensures Rank(c0, t, pl, 0) >= Rank(c0, s, pl, 0) && (raised <==> Rank(c0, t, pl, 0) > Rank(c0, s, pl, 0))
    ensures raised ==> !IsTop(s, pl)
    ensures !raised ==> (IsTop(t, pl) <==> IsTop(s, pl))
  {
    if !raised {
      AllSame(s, t, pl);
      SameRank(c0, s, t, pl, 0);
    } else if IsTop(s, pl) && !IsTop(t, pl) {
      NumberBelow(c0, t, pl);
    }
  }

  /** Only the digits of `pl` in a source matter. */
  lemma ProgressedFrom(c: seq<int>, a: seq<int>, a': seq<int>, t: seq<int>, d: nat, pl: Player)
    requires |a| == |a'| == |t| == |c| >= 2 && d < |c| && SameDigits(a, a', pl)
    ensures Progressed(c, a, t, d, pl) <==> Progressed(c, a', t, d, pl)
  {
    var f, carry := First(d, pl), if d % 2 == pl then 1 else 0;
    AddedFrom(c, a, a', t, f, carry);
  }

  lemma {:induction false} AddedFrom(c: seq<int>, a: seq<int>, a': seq<int>, t: seq<int>, i: nat, carry: nat)
    requires |a| == |a'| == |t| == |c| && carry <= 1
    requires forall j: nat :: i <= j < |c| && j % 2 == i % 2 ==> a'[j] == a[j]
    ensures Added(c, a, t, i, carry) <==> Added(c, a', t, i, carry)
    ensures CarryOut(c, a, i, carry) == CarryOut(c, a', i, carry)
    decreases |c| - i
  {
    if i < |c| { AddedFrom(c, a, a', t, i + 2, if a[i] + carry > c[i] then 1 else 0); }
  }

  /** What lifting owes the owner of `node`: its measure meets the demand of `target`, or of all enabled successors, and
      if it rose, then to exactly what one of these demands. */
  ghost predicate MaxOutcome(g: Game, dis: seq<bool>, c: seq<int>, c0: seq<int>, rows: seq<seq<int>>, row: seq<int>, node: nat, target: int, ch: int) {
    && g.Valid() && |dis| == |rows| == g.Size() && node < g.Size() && g.priority[node] < |c| == |c0|
    && Bounds(c0) && |row| == |c| && Measure(c0, row, g.owner[node]) && (forall v :: 0 <= v < |rows| ==> |rows[v]| == |c|)
    && (if target == -1 then Meets(g, dis, c, c0, rows, row, node, |g.outs[node]|)
        else 0 <= target < g.Size() && AtLeast(c, c0, row, rows[target], g.priority[node], g.owner[node]))
    && (ch != -1 ==>
          && 0 <= ch < g.Size() && g.Edge(node, ch) && !dis[ch] && (target == -1 || ch == target)
          && if target == -1 && ch == node then SelfExactly(c, c0, rows[node], row, g.priority[node], g.owner[node])
             else Exactly(c, row, rows[ch], g.priority[node], g.owner[node]))
    && (OwnLoop(g, dis, rows, node, target) ==> ch != -1)
  }

  /** The measure of the owner is not Top, the lift looks at a self-loop, and the owner has the parity of the priority. */
  ghost predicate OwnLoop(g: Game, dis: seq<bool>, rows: seq<seq<int>>, node: nat, target: int)
    requires g.Valid() && node < |dis| == |rows| == g.Size() && |rows[node]| >= 2
  {
    && !IsTop(rows[node], g.owner[node]) && g.priority[node] % 2 == g.owner[node]
    && g.Edge(node, node) && !dis[node] && (target == -1 || target == node)
  }

  /** What lifting owes the other player: `to` makes the lowest demand, the measure meets it, and if it rose, then to
      exactly that. */
  ghost predicate MinOutcome(g: Game, dis: seq<bool>, c: seq<int>, c0: seq<int>, rows: seq<seq<int>>, row: seq<int>, node: nat, to: int, raised: bool) {
    && g.Valid() && |dis| == |rows| == g.Size() && node < g.Size() && g.priority[node] < |c| == |c0|
    && Bounds(c0) && |row| == |c| && Measure(c0, row, 1 - g.owner[node]) && (forall v :: 0 <= v < |rows| ==> |rows[v]| == |c|)
    && 0 <= to < g.Size() && g.Edge(node, to) && !dis[to]
    && AtLeast(c, c0, row, rows[to], g.priority[node], 1 - g.owner[node])
    && (raised ==> Exactly(c, row, rows[to], g.priority[node], 1 - g.owner[node]))
    && exists b :: LowestBy(g, dis, c, c0, rows, node, to, b)
  }

  ghost predicate LowestBy(g: Game, dis: seq<bool>, c: seq<int>, c0: seq<int>, rows: seq<seq<int>>, node: nat, to: nat, b: seq<int>)
    requires g.Valid() && node < g.Size() && to < |rows| && |rows[to]| == |c| == |c0| && g.priority[node] < |c| && Bounds(c0)
  {
    && |b| == |c| && Progressed(c, rows[to], b, g.priority[node], 1 - g.owner[node])
    && Lowest(g, dis, c, c0, rows, b, node, 1 - g.owner[node], |g.outs[node]|)
  }

  /** Raising the other player's measure afterwards does not matter to the owner. */
  lemma MaxOutcomeKept(g: Game, dis: seq<bool>, c: seq<int>, c0: seq<int>, rows: seq<seq<int>>, row: seq<int>, row': seq<int>, node: nat, target: int, ch: int)
    requires MaxOutcome(g, dis, c, c0, rows, row, node, target, ch)
    requires SameDigits(row, row', g.owner[node])
    ensures MaxOutcome(g, dis, c, c0, rows, row', node, target, ch)
  {
    var pl, d := g.owner[node], g.priority[node];
    AllSame(row, row', pl);
    SameRank(c0, row, row', pl, d);
    hide Rank, AtLeast, SelfMet, SelfExactly, Meeting, Progressed, SameMeasure;
    if target == -1 {
      forall j: nat | j < |g.outs[node]| && !dis[g.outs[node][j]] ensures Meeting(g, c, c0, rows, row', node, g.outs[node][j]) {
        MeetingMore(g, c, c0, rows, row, row', node, g.outs[node][j]);
      }
    } else {
      AtLeastMore(c, c0, row, row', rows[target], d, pl);
    }
    if ch != -1 {
      if target == -1 && ch == node {
        SelfExactlyKept(c, c0, rows[node], row, row', d, pl);
      } else {
        ProgressedCopied(c, rows[ch], row, row', d, pl);
      }
    }
  }

  lemma SelfExactlyKept(c: seq<int>, c0: seq<int>, s: seq<int>, t: seq<int>, t': seq<int>, d: nat, pl: Player)
    requires SelfExactly(c, c0, s, t, d, pl) && |t| == |t'| == |c| == |c0| && Bounds(c0)
    requires Measure(c0, t, pl) && Measure(c0, t', pl) && SameDigits(t, t', pl) && Rank(c0, t', pl, d) == Rank(c0, t, pl, d)
    ensures SelfExactly(c, c0, s, t', d, pl)
  {
    hide Progressed, Measure, Rank;
    var mid :| SelfDemand(c, c0, s, mid, t, t, d, pl);
    ProgressedCopied(c, mid, t, t', d, pl);
    assert SelfDemand(c, c0, s, mid, t', t', d, pl);
  }

  /** Raising the owner's measure beforehand does not matter to the other player. */
  lemma MinOutcomeKept(g: Game, dis: seq<bool>, c: seq<int>, c0: seq<int>, rows: seq<seq<int>>, rows': seq<seq<int>>, row: seq<int>, node: nat, to: int, raised: bool)
    requires MinOutcome(g, dis, c, c0, rows', row, node, to, raised) && |rows| == |rows'|
    requires forall v :: 0 <= v < |rows| ==> SameDigits(rows[v], rows'[v], 1 - g.owner[node])
    ensures MinOutcome(g, dis, c, c0, rows, row, node, to, raised)
  {
    var pl: Player, d := 1 - g.owner[node], g.priority[node];
    forall v, t: seq<int> | 0 <= v < |rows| && |t| == |c|
      ensures Progressed(c, rows[v], t, d, pl) <==> Progressed(c, rows'[v], t, d, pl)
    {
      ProgressedFrom(c, rows[v], rows'[v], t, d, pl);
    }
    hide Progressed, Measure, Rank;
    var b :| LowestBy(g, dis, c, c0, rows', node, to, b);
    forall j: nat | j < |g.outs[node]| && !dis[g.outs[node][j]] ensures AtMost(c, c0, b, rows[g.outs[node][j]], d, pl) {
      assert AtMost(c, c0, b, rows'[g.outs[node][j]], d, pl);
    }
    assert LowestBy(g, dis, c, c0, rows, node, to, b);
  }

  // ---------------------------------------------------------------------------------------------------------
  // The start
  // ---------------------------------------------------------------------------------------------------------

  /** The number of enabled vertices of priority `d` among the first `n`. */
  function Enabled(g: Game, dis: seq<bool>, d: nat, n: nat): (r: nat)
    requires |dis| == g.Size() && n <= g.Size()
  {
    if n == 0 then 0 else Enabled(g, dis, d, n - 1) + if !dis[n - 1] && g.priority[n - 1] == d then 1 else 0
  }

  predicate IsZero(a: seq<int>) { forall i :: 0 <= i < |a| ==> a[i] == 0 }

  lemma {:induction false} AllOpen(g: Game, dis: seq<bool>, rows: seq<seq<int>>, d: nat, n: nat)
    requires |dis| == |rows| == g.Size() && n <= g.Size() && forall v :: 0 <= v < g.Size() ==> |rows[v]| >= 2 && IsZero(rows[v])
    ensures Open(g, dis, rows, d, n) == Enabled(g, dis, d, n)
    decreases n
  {
    if n > 0 { AllOpen(g, dis, rows, d, n - 1); }
  }

  lemma {:induction false} ZeroNumber(c: seq<int>, a: seq<int>, i: nat)
    requires Bounds(c) && |a| == |c| && IsZero(a)
    ensures InRange(c, a, i) && Number(c, a, i) == 0
    decreases |c| - i
  {
    if i < |c| { ZeroNumber(c, a, i + 2); }
  }

  lemma ZeroRank(c: seq<int>, a: seq<int>, pl: Player)
    requires Bounds(c) && |a| == |c| && IsZero(a)
    ensures Measure(c, a, pl) && Rank(c, a, pl, 0) == 0
  {
    ZeroNumber(c, a, pl);
    assert First(0, pl) == pl;
  }

  method ZeroRows(n: nat, k: nat) returns (rows: seq<array<int>>)
    ensures |rows| == n
    ensures forall v :: 0 <= v < n ==> fresh(rows[v]) && rows[v].Length == k && IsZero(rows[v][..])
    ensures forall u, v :: 0 <= u < v < n ==> rows[u] != rows[v]
  {
    rows := [];
    for v := 0 to n
      invariant |rows| == v
      invariant forall u :: 0 <= u < v ==> fresh(rows[u]) && rows[u].Length == k && IsZero(rows[u][..])
      invariant forall t, u :: 0 <= t < u < v ==> rows[t] != rows[u]
    {
      var row := new int[k](_ => 0);
      rows := rows + [row];
    }
  }

  method CountPriorities(g: Game, disabled: array<bool>, k: nat) returns (counts: array<int>)
    requires disabled.Length == g.Size() && forall v :: 0 <= v < g.Size() ==> g.priority[v] < k
    ensures fresh(counts) && counts.Length == k
    ensures forall d :: 0 <= d < k ==> counts[d] == Enabled(g, disabled[..], d, g.Size())
  {
    counts := new int[k](_ => 0);
    for v := 0 to g.Size()
      invariant forall d :: 0 <= d < k ==> counts[d] == Enabled(g, disabled[..], d, v)
    {
      if !disabled[v] { counts[g.priority[v]] := counts[g.priority[v]] + 1; }
    }
  }

  // ---------------------------------------------------------------------------------------------------------
  // How often a vertex can be lifted
  // ---------------------------------------------------------------------------------------------------------

  ghost predicate TableFits(c0: seq<int>, rows: seq<seq<int>>) {
    Bounds(c0) && forall v :: 0 <= v < |rows| ==> |rows[v]| == |c0| && Measure(c0, rows[v], 0) && Measure(c0, rows[v], 1)
  }

  /** The measures of both players of the first `n` vertices, added up. */
  ghost function Total(c0: seq<int>, rows: seq<seq<int>>, n: nat): nat
    requires TableFits(c0, rows) && n <= |rows|
  {
    if n == 0 then 0 else Total(c0, rows, n - 1) + Rank(c0, rows[n - 1], 0, 0) + Rank(c0, rows[n - 1], 1, 0)
  }

  lemma RankBound(c0: seq<int>, a: seq<int>, pl: Player)
    requires Bounds(c0) && |a| == |c0| && Measure(c0, a, pl)
    ensures Rank(c0, a, pl, 0) <= Range(c0, pl)
  {
    assert First(0, pl) == pl;
    if !IsTop(a, pl) { NumberBelow(c0, a, pl); }
  }

  lemma {:induction false} TotalBound(c0: seq<int>, rows: seq<seq<int>>, n: nat)
    requires TableFits(c0, rows) && n <= |rows|
    ensures Total(c0, rows, n) <= Times(n, Range(c0, 0) + Range(c0, 1))
    decreases n
  {
    if n > 0 {
      TotalBound(c0, rows, n - 1);
      RankBound(c0, rows[n - 1], 0);
      RankBound(c0, rows[n - 1], 1);
      var b := Range(c0, 0) + Range(c0, 1);
      assert n * b == (n - 1) * b + b;
    }
  }

  /** A successful lift of `v`: its measures rise, nothing else changes. */
  ghost predicate LiftStep(c0: seq<int>, s: seq<seq<int>>, t: seq<seq<int>>, v: nat) {
    && TableFits(c0, s) && TableFits(c0, t) && |s| == |t| && v < |s|
    && (forall u :: 0 <= u < |s| && u != v ==> s[u] == t[u])
    && Rank(c0, t[v], 0, 0) >= Rank(c0, s[v], 0, 0) && Rank(c0, t[v], 1, 0) >= Rank(c0, s[v], 1, 0)
    && (Rank(c0, t[v], 0, 0) > Rank(c0, s[v], 0, 0) || Rank(c0, t[v], 1, 0) > Rank(c0, s[v], 1, 0))
  }

  lemma {:induction false} TotalRises(c0: seq<int>, s: seq<seq<int>>, t: seq<seq<int>>, v: nat, n: nat)
    requires LiftStep(c0, s, t, v) && n <= |s|
    ensures Total(c0, t, n) >= Total(c0, s, n) + if v < n then 1 else 0
    decreases n
  {
    if n > 0 { TotalRises(c0, s, t, v, n - 1); }
  }

  lemma IsLiftStep(c0: seq<int>, s: seq<seq<int>>, t: seq<seq<int>>, v: nat, pl: Player, d: nat, first: bool, second: bool)
    requires TableFits(c0, s) && TableFits(c0, t) && |s| == |t| && v < |s| && forall u :: 0 <= u < |s| && u != v ==> s[u] == t[u]
    requires LiftedFor(c0, s[v], t[v], pl, d, first) && LiftedFor(c0, s[v], t[v], 1 - pl, d, second)
    ensures if first || second then LiftStep(c0, s, t, v) else s == t
  {
    assert !first && !second ==> s[v] == t[v];
    LiftedForRank(c0, s[v], t[v], pl, d, first);
    LiftedForRank(c0, s[v], t[v], 1 - pl, d, second);
  }

  ghost predicate Lifts(c0: seq<int>, s: seq<seq<int>>, t: seq<seq<int>>) {
    exists v :: LiftStep(c0, s, t, v)
  }

  /** The tables between successful lifts. */
  ghost predicate LiftRun(c0: seq<int>, run: seq<seq<seq<int>>>) {
    && |run| > 0 && TableFits(c0, run[0])
    && forall i: nat :: i < |run| - 1 ==> Lifts(c0, run[i], run[i + 1])
  }

  lemma {:induction false} LiftsCount(c0: seq<int>, run: seq<seq<seq<int>>>, i: nat)
    requires LiftRun(c0, run) && i < |run|
    ensures TableFits(c0, run[i]) && |run[i]| == |run[0]| && Total(c0, run[i], |run[i]|) >= i
    decreases i
  {
    if i > 0 {
      LiftsCount(c0, run, i - 1);
      var before := i - 1;
      assert Lifts(c0, run[before], run[before + 1]);
      var v :| LiftStep(c0, run[before], run[before + 1], v);
      TotalRises(c0, run[before], run[i], v, |run[i]|);
    }
  }

  /** There are at most as many successful lifts as the measures of all vertices have room for. */
  lemma LiftsBounded(c0: seq<int>, run: seq<seq<seq<int>>>)
    requires LiftRun(c0, run)
    ensures |run| - 1 <= Times(|run[0]|, Range(c0, 0) + Range(c0, 1))
  {
    LiftsCount(c0, run, |run| - 1);
    TotalBound(c0, run[|run| - 1], |run[0]|);
  }

  class TSPMSolver {
    const game: Game
    const disabled: array<bool>
    const k: nat
    const pms: seq<array<int>>
    const counts: array<int>
    const tmp: array<int>
    const best: array<int>
    const strategy: array<int>
    /** The bounds at the start. */
    ghost const c0: seq<int>

    ghost predicate Shaped() {
      && game.Valid() && disabled.Length == strategy.Length == |pms| == game.Size()
      && k >= 2 && |c0| == counts.Length == tmp.Length == best.Length == k && Bounds(c0)
      && (forall v :: 0 <= v < game.Size() ==> game.priority[v] < k)
      && (forall v :: 0 <= v < |pms| ==> pms[v].Length == k)
      && (forall u, v :: 0 <= u < v < |pms| ==> pms[u] != pms[v])
      && (forall v :: 0 <= v < |pms| ==> pms[v] != tmp && pms[v] != best && pms[v] != counts && pms[v] != strategy)
      && tmp != best && tmp != counts && tmp != strategy && best != counts && best != strategy && counts != strategy
    }

    /** The bounds only shrink. */
    ghost predicate Shrunk()
      reads counts
    {
      |c0| == counts.Length && Bounds(counts[..]) && forall i :: 0 <= i < |c0| ==> counts[i] <= c0[i]
    }

    ghost predicate RowFits(v: nat)
      requires Shaped() && v < game.Size()
      reads pms[v]
    {
      Measure(c0, pms[v][..], 0) && Measure(c0, pms[v][..], 1)
    }

    ghost predicate RowsFit()
      requires Shaped()
      reads pms
    {
      forall v: nat :: v < game.Size() ==> RowFits(v)
    }

    ghost function Rows(): (rows: seq<seq<int>>)
      requires Shaped()
      reads pms
      ensures |rows| == game.Size() && forall v :: 0 <= v < game.Size() ==> rows[v] == pms[v][..] && |rows[v]| == k
    {
      seq(game.Size(), v requires 0 <= v < game.Size() reads pms => pms[v][..])
    }

    /** Each bound is the number of vertices of its priority that can still be on a cycle won by its player. */
    ghost predicate Counted()
      requires Shaped()
      reads pms, counts, disabled
    {
      forall d: nat :: d < k ==> counts[d] == Open(game, disabled[..], Rows(), d, game.Size())
    }

    ghost predicate Valid()
      reads pms, counts, disabled
    {
      Shaped() && Shrunk() && RowsFit() && Counted()
    }

    /** All measures zero, and every enabled vertex counted. */
    constructor (game: Game, disabled: array<bool>)
      requires game.Valid() && game.Sorted() && disabled.Length == game.Size() > 0
      ensures Valid() && this.game == game && this.disabled == disabled
      ensures forall v :: 0 <= v < game.Size() ==> fresh(pms[v])
      ensures fresh(counts) && fresh(tmp) && fresh(best) && fresh(strategy)
      ensures forall v, pl: Player :: 0 <= v < game.Size() ==> RowFits(v) && RankOf(v, pl, 0) == 0
    {
      var n := game.Size();
      var highest := game.priority[n - 1] + 1;
      var digits := if highest < 2 then 2 else highest;
      var rows := ZeroRows(n, digits);
      var counts := CountPriorities(game, disabled, digits);
      this.game, this.disabled, k, pms := game, disabled, digits, rows;
      this.counts, tmp, best := counts, new int[digits], new int[digits];
      strategy := new int[n](_ => -1);
      c0 := counts[..];
      new;
      assert Shaped();
      assert Shrunk();
      forall v: nat | v < n ensures RowFits(v) && RankOf(v, 0, 0) == 0 && RankOf(v, 1, 0) == 0 {
        ZeroRank(c0, pms[v][..], 0);
        ZeroRank(c0, pms[v][..], 1);
      }
      forall d: nat | d < k ensures this.counts[d] == Open(game, disabled[..], Rows(), d, n) {
        AllOpen(game, disabled[..], Rows(), d, n);
      }
    }

    /** The measure of `v` for `pl`, truncated at `d`. */
    ghost function RankOf(v: nat, pl: Player, d: nat): nat
      requires Shaped() && v < game.Size() && RowFits(v)
      reads pms[v]
    {
      Rank(c0, pms[v][..], pl, d)
    }

    method PmLess(a: array<int>, b: array<int>, d: nat, pl: Player) returns (r: bool)
      requires Shaped() && a.Length == b.Length == k
      ensures r == Less(counts[..], a[..], b[..], d, pl)
    {
      if b[pl] == -1 { return a[pl] != -1; }
      if a[pl] == -1 { return false; }
      var i := if k % 2 == pl then k - 2 else k - 1;
      while i >= d
        invariant i < k
        invariant LessFrom(counts[..], a[..], b[..], i, d) == LessFrom(counts[..], a[..], b[..], Highest(k, pl), d)
        decreases i
      {
        if a[i] != b[i] {
          if a[i] > counts[i] && b[i] > counts[i] { return false; }
          return a[i] < b[i];
        }
        i := i - 2;
      }
      return false;
    }

    method PmCopy(dst: array<int>, src: array<int>, pl: Player)
      requires dst.Length == src.Length == k && dst != src
      modifies dst
      ensures forall i :: 0 <= i < k ==> dst[i] == if i % 2 == pl then src[i] else old(dst[i])
    {
      var i: nat := pl;
      while i < k
        invariant i % 2 == pl
        invariant forall j :: 0 <= j < k ==> dst[j] == if j % 2 == pl && j < i then src[j] else old(dst[j])
      {
        dst[i] := src[i];
        i := i + 2;
      }
    }

    /** Clear the digits of `pl` below `d`. */
    method ClearBelow(dst: array<int>, d: nat, pl: Player) returns (i: nat)
      requires dst.Length == k && d < k
      modifies dst
      ensures i == First(d, pl)
      ensures forall j :: 0 <= j < k ==> dst[j] == if j % 2 == pl && j < d then 0 else old(dst[j])
    {
      i := pl;
      while i < d
        invariant i % 2 == pl && i <= d + 1
        invariant forall j :: 0 <= j < k ==> dst[j] == if j % 2 == pl && j < i && j < d then 0 else old(dst[j])
      {
        dst[i] := 0;
        i := i + 2;
      }
    }

    /** Add a carry of one at digit `f` if `one`; the result is the carry out. */
    method AddFrom(dst: array<int>, src: array<int>, f: nat, one: bool) returns (carry: nat)
      requires Shaped() && dst.Length == src.Length == k && dst != src && dst != counts
      modifies dst
      ensures forall j :: 0 <= j < k && (j % 2 != f % 2 || j < f) ==> dst[j] == old(dst[j])
      ensures Added(counts[..], src[..], dst[..], f, if one then 1 else 0)
      ensures carry == CarryOut(counts[..], src[..], f, if one then 1 else 0)
    {
      hide Added, CarryOut, Game.Valid;
      var i := f;
      carry := if one then 1 else 0;
      ghost var c, a, carry0 := counts[..], src[..], carry;
      while i < k
        invariant f <= i && i % 2 == f % 2 && (i < k + 2 || i == f)
        invariant carry <= 1 && carry == CarryAt(c, a, f, carry0, i)
        invariant forall j :: 0 <= j < k && (j % 2 != f % 2 || j < f) ==> dst[j] == old(dst[j])
        invariant forall j: nat :: f <= j < i && j < k && j % 2 == f % 2 ==> dst[j] == NewDigit(c, a, f, carry0, j)
      {
        var v := src[i] + carry;
        if v > counts[i] {
          dst[i] := 0;
          carry := 1;
        } else {
          dst[i] := v;
          carry := 0;
        }
        i := i + 2;
      }
      CarryEnds(c, a, f, carry0, i);
      NoDigitsLeft(c, a, i, carry);
      DigitsAdd(c, a, dst[..], f, carry0, f);
    }

    method Prog(dst: array<int>, src: array<int>, d: nat, pl: Player)
      requires Shaped() && dst.Length == src.Length == k && dst != src && dst != counts && d < k
      modifies dst
      ensures Progressed(counts[..], src[..], dst[..], d, pl)
      ensures OnlyPlayer(old(dst[..]), dst[..], pl)
    {
      hide Added, CarryOut, Game.Valid;
      if src[pl] == -1 {
        dst[pl] := -1;
        return;
      }
      var i := ClearBelow(dst, d, pl);
      var carry := AddFrom(dst, src, i, d == i);
      AllZero(dst[..], pl, i);
      if carry == 1 { dst[pl] := -1; }
    }

    /** Put the measure `src` of `pl` into the row of `node` if it is higher. */
    method RaiseTo(node: nat, src: array<int>, d: nat, pl: Player) returns (raised: bool)
      requires Shaped() && Shrunk() && node < game.Size() && RowFits(node) && d < k
      requires src.Length == k && pms[node] != src && Measure(counts[..], src[..], pl) && Measure(c0, src[..], pl)
      modifies pms[node]
      ensures RowFits(node)
      ensures raised <==> old(Rank(c0, pms[node][..], pl, d)) < Rank(c0, src[..], pl, d)
      ensures Lifted(c0, old(pms[node][..]), pms[node][..], pl, d, raised)
      ensures raised ==> forall i :: 0 <= i < k && i % 2 == pl ==> pms[node][i] == src[i]
      ensures RankOf(node, pl, d) >= Rank(c0, src[..], pl, d)
    {
      hide Measure, InRange, Rank, Less, Game.Valid;
      var pm := pms[node];
      ghost var s := pm[..];
      raised := PmLess(pm, src, d, pl);
      LessMeaning(counts[..], c0, s, src[..], d, pl);
      if raised {
        PmCopy(pm, src, pl);
        AllSame(src[..], pm[..], pl);
        SameRank(c0, src[..], pm[..], pl, d);
        TruncatedLess(c0, s, pm[..], pl, d);
        OtherKept(c0, s, pm[..], 1 - pl, d);
      }
    }

    /** Compute in `tmp` what Prog makes of the row of `to`. */
    method ProgOf(to: nat, d: nat, pl: Player)
      requires Shaped() && Shrunk() && to < game.Size() && RowFits(to) && d < k
      modifies tmp
      ensures Progressed(counts[..], pms[to][..], tmp[..], d, pl)
      ensures Measure(counts[..], tmp[..], pl) && Measure(c0, tmp[..], pl)
    {
      Prog(tmp, pms[to], d, pl);
      ProgRises(counts[..], c0, pms[to][..], tmp[..], d, pl);
    }

    /** One step of the maximum: raise `node` to what `to` demands. */
    method RaiseVia(node: nat, to: nat, d: nat, pl: Player) returns (raised: bool)
      requires Shaped() && Shrunk() && RowsFit() && node < game.Size() && to < game.Size() && d < k
      modifies pms[node], tmp
      ensures RowsFit() && RowFits(node)
      ensures Lifted(c0, old(pms[node][..]), pms[node][..], pl, d, raised)
      ensures raised ==> Exactly(counts[..], pms[node][..], old(pms[to][..]), d, pl)
      ensures AtLeast(counts[..], c0, pms[node][..], old(pms[to][..]), d, pl)
      ensures to == node ==> SelfDemand(counts[..], c0, old(pms[node][..]), old(pms[node][..]), tmp[..], pms[node][..], d, pl)
    {
      hide Measure, InRange, Rank, Progressed, AtLeast, Raised, Game.Valid;
      assert RowFits(node) && RowFits(to);
      ghost var src := pms[to][..];
      ProgOf(to, d, pl);
      raised := RaiseTo(node, tmp, d, pl);
      if raised { ProgressedCopied(counts[..], src, tmp[..], pms[node][..], d, pl); }
      AtLeastOne(counts[..], c0, pms[node][..], src, tmp[..], d, pl);
      forall v: nat | v < game.Size() ensures RowFits(v) {
        if v != node { assert old(RowFits(v)); }
      }
    }

    /** Raise the measure of the owner to the highest that a successor demands; `rows` are the rows at the start. */
    method RaiseMax(node: nat, ghost rows: seq<seq<int>>) returns (ch: int)
      requires Shaped() && Shrunk() && RowsFit() && node < game.Size() && RowFits(node) && rows == Rows()
      modifies pms[node], tmp
      ensures RowsFit() && RowFits(node)
      ensures Lifted(c0, rows[node], pms[node][..], game.owner[node], game.priority[node], ch != -1)
      ensures ch != -1 ==> 0 <= ch < game.Size() && game.Edge(node, ch) && !disabled[ch]
      ensures ch != -1 && ch != node ==> Exactly(counts[..], pms[node][..], rows[ch], game.priority[node], game.owner[node])
      ensures ch == node ==> SelfExactly(counts[..], c0, rows[node], pms[node][..], game.priority[node], game.owner[node])
      ensures OwnLoop(game, disabled[..], rows, node, -1) ==> ch != -1
      ensures Meets(game, disabled[..], counts[..], c0, rows, pms[node][..], node, |game.outs[node]|)
    {
      hide Measure, InRange, Rank, AtLeast, Exactly, Lifted, Meets, Game.Valid, RowFits, RowsFit, Rows, Shrunk;
      Sizes(game);
      var pl, d := game.owner[node], game.priority[node];
      ch := -1;
      RowFacts(node);
      LiftedStart(c0, rows[node], pl, d);
      MeetsNone(game, disabled[..], counts[..], c0, rows, pms[node][..], node);
      for j := 0 to |game.outs[node]|
        invariant RowsFit() && RowFits(node) && Others(node, rows)
        invariant Lifted(c0, rows[node], pms[node][..], pl, d, ch != -1)
        invariant ch != -1 ==> 0 <= ch < game.Size() && game.Edge(node, ch) && !disabled[ch]
        invariant ch != -1 && ch != node ==> Exactly(counts[..], pms[node][..], rows[ch], d, pl)
        invariant ch == node ==> SelfExactly(counts[..], c0, rows[node], pms[node][..], d, pl)
        invariant Meets(game, disabled[..], counts[..], c0, rows, pms[node][..], node, j)
      {
        var to := game.outs[node][j];
        assert game.Edge(node, to);
        EdgeInside(game, node, to);
        ghost var before, ch0, raised := pms[node][..], ch, false;
        RowFacts(node);
        LiftedStart(c0, before, pl, d);
        if !disabled[to] {
          assert to != node ==> pms[to][..] == rows[to];
          var higher := RaiseVia(node, to, d, pl);
          if higher { ch := to; }
          raised := higher;
          if to == node { SelfStep(counts[..], c0, rows[node], before, tmp[..], pms[node][..], d, pl, ch0 != -1, raised); }
        }
        LiftedMore(c0, rows[node], before, pms[node][..], pl, d, ch0 != -1, raised);
        LiftedRank(c0, before, pms[node][..], pl, d, raised);
        MeetsNext(game, disabled[..], counts[..], c0, rows, before, pms[node][..], node, j);
      }
      if OwnLoop(game, disabled[..], rows, node, -1) {
        LoopMet(game, disabled[..], counts[..], c0, rows, pms[node][..], node);
        LoopRaised(node, rows, d, pl, ch != -1);
      }
    }

    lemma LoopRaised(node: nat, rows: seq<seq<int>>, d: nat, pl: Player, raised: bool)
      requires Shaped() && Shrunk() && node < game.Size() == |rows| && |rows[node]| >= 2 && !IsTop(rows[node], pl) && d % 2 == pl
      requires SelfMet(counts[..], c0, rows[node], pms[node][..], d, pl) && Lifted(c0, rows[node], pms[node][..], pl, d, raised)
      ensures raised
    {
      SelfRaised(counts[..], c0, rows[node], pms[node][..], d, pl, raised);
    }

    lemma RowFacts(node: nat)
      requires Shaped() && node < game.Size() && RowFits(node)
      ensures Measure(c0, pms[node][..], 0) && Measure(c0, pms[node][..], 1)
    {
    }

    /** Only the row of `node` may differ from `rows`. */
    ghost predicate Others(node: nat, rows: seq<seq<int>>)
      requires Shaped()
      reads pms
    {
      |rows| == game.Size() && forall v :: 0 <= v < game.Size() && v != node ==> rows[v] == pms[v][..]
    }

    /** What is known of `best` and `to` once a successor was enabled. */
    ghost predicate Best(node: nat, to: int, pl: Player, rows: seq<seq<int>>, n: nat)
      requires Shaped() && node < game.Size() && |rows| == game.Size()
      reads best, counts, disabled
    {
      && 0 <= to < game.Size() && game.Edge(node, to) && !disabled[to]
      && game.priority[node] < k && (forall v :: 0 <= v < |rows| ==> |rows[v]| == k)
      && Measure(counts[..], best[..], pl) && Measure(c0, best[..], pl)
      && Progressed(counts[..], rows[to], best[..], game.priority[node], pl)
      && Lowest(game, disabled[..], counts[..], c0, rows, best[..], node, pl, n)
    }

    /** Take `tmp` over into `best` if it is the first or a lower one. */
    method Consider(node: nat, bestTo: int, pl: Player, ghost rows: seq<seq<int>>, j: nat) returns (to: int)
      requires Shaped() && Shrunk() && node < game.Size() && |rows| == game.Size() && j < |game.outs[node]|
      requires game.priority[node] < k && forall v :: 0 <= v < |rows| ==> |rows[v]| == k
      requires !disabled[game.outs[node][j]]
      requires Progressed(counts[..], rows[game.outs[node][j]], tmp[..], game.priority[node], pl)
      requires Measure(counts[..], tmp[..], pl) && Measure(c0, tmp[..], pl)
      requires if bestTo == -1 then NoneEnabled(game, disabled[..], node, j) else Best(node, bestTo, pl, rows, j)
      modifies best
      ensures to >= 0 && Best(node, to, pl, rows, j + 1)
    {
      Sizes(game);
      assert game.Edge(node, game.outs[node][j]);
      EdgeInside(game, node, game.outs[node][j]);
      hide Measure, InRange, Rank, Progressed, AtMost, Lowest, Less, Game.Valid;
      var u, d := game.outs[node][j], game.priority[node];
      to := bestTo;
      var lower := bestTo == -1;
      ghost var b := best[..];
      if bestTo != -1 {
        lower := PmLess(tmp, best, d, pl);
        LessMeaning(counts[..], c0, tmp[..], best[..], d, pl);
      }
      if lower {
        CopyBest();
        to := u;
      }
      AtMostOne(counts[..], c0, best[..], rows[u], tmp[..], d, pl);
      if bestTo == -1 {
        LowestStart(game, disabled[..], counts[..], c0, rows, best[..], node, pl, j);
      } else {
        LowestNext(game, disabled[..], counts[..], c0, rows, b, best[..], node, pl, j);
      }
    }

    method CopyBest()
      requires Shaped()
      modifies best
      ensures best[..] == tmp[..]
    {
      for i := 0 to k
        invariant forall j :: 0 <= j < i ==> best[j] == tmp[j]
      {
        best[i] := tmp[i];
      }
    }

    /** The lowest demand of an enabled successor. */
    method FindMin(node: nat, pl: Player, ghost rows: seq<seq<int>>) returns (to: int)
      requires Shaped() && Shrunk() && RowsFit() && node < game.Size() && rows == Rows()
      requires !NoneEnabled(game, disabled[..], node, |game.outs[node]|)
      modifies tmp, best
      ensures Best(node, to, pl, rows, |game.outs[node]|)
    {
      hide Measure, InRange, Progressed, Lowest, Best, Game.Valid, RowFits, RowsFit, Rows, Shrunk, NoneEnabled;
      Sizes(game);
      to := -1;
      NothingYet(node);
      for j := 0 to |game.outs[node]|
        invariant if to == -1 then NoneEnabled(game, disabled[..], node, j) else Best(node, to, pl, rows, j)
      {
        var u := game.outs[node][j];
        assert game.Edge(node, u);
        EdgeInside(game, node, u);
        if !disabled[u] {
          AllFit(u);
          ProgOf(u, game.priority[node], pl);
          to := Consider(node, to, pl, rows, j);
        } else {
          SkipDisabled(node, to, pl, rows, j);
        }
      }
    }

    lemma NothingYet(node: nat)
      requires Shaped() && node < game.Size()
      ensures NoneEnabled(game, disabled[..], node, 0)
    {
    }

    lemma AllFit(v: nat)
      requires Shaped() && v < game.Size() && RowsFit()
      ensures RowFits(v)
    {
    }

    lemma SkipDisabled(node: nat, to: int, pl: Player, rows: seq<seq<int>>, j: nat)
      requires Shaped() && node < game.Size() && |rows| == game.Size() && j < |game.outs[node]| && disabled[game.outs[node][j]]
      requires if to == -1 then NoneEnabled(game, disabled[..], node, j) else Best(node, to, pl, rows, j)
      ensures if to == -1 then NoneEnabled(game, disabled[..], node, j + 1) else Best(node, to, pl, rows, j + 1)
    {
      if to != -1 { LowestNext(game, disabled[..], counts[..], c0, rows, best[..], best[..], node, pl, j); }
    }

    /** Raise the measure of the other player to the lowest that a successor demands, and remember that successor. */
    method RaiseMin(node: nat, ghost rows: seq<seq<int>>) returns (ch: int)
      requires Shaped() && Shrunk() && RowsFit() && node < game.Size() && RowFits(node) && rows == Rows()
      requires !NoneEnabled(game, disabled[..], node, |game.outs[node]|)
      modifies pms[node], tmp, best, strategy
      ensures RowFits(node)
      ensures strategy[..] == old(strategy[..])[node := strategy[node]] && (ch == -1 || ch == strategy[node])
      ensures var pl: Player, d := 1 - game.owner[node], game.priority[node];
        && Lifted(c0, rows[node], pms[node][..], pl, d, ch != -1)
        && Best(node, strategy[node], pl, rows, |game.outs[node]|)
        && AtLeast(counts[..], c0, pms[node][..], rows[strategy[node]], d, pl)
        && (ch != -1 ==> Exactly(counts[..], pms[node][..], rows[strategy[node]], d, pl))
    {
      hide InRange, Rank, Progressed, Lowest, Game.Valid, RowsFit, Rows, Lifted, AtLeast;
      Sizes(game);
      var pl: Player, d := 1 - game.owner[node], game.priority[node];
      var to := FindMin(node, pl, rows);
      strategy[node] := to;
      RowFacts(node);
      var raised := RaiseTo(node, best, d, pl);
      RowFacts(node);
      AtLeastOne(counts[..], c0, pms[node][..], rows[to], best[..], d, pl);
      if raised { ProgressedCopied(counts[..], rows[to], best[..], pms[node][..], d, pl); }
      ch := if raised then to else -1;
    }

    /** The owner's part of a lift. */
    method LiftMax(node: nat, target: int, ghost rows: seq<seq<int>>) returns (ch: int)
      requires Shaped() && Shrunk() && RowsFit() && node < game.Size() && RowFits(node) && rows == Rows()
      requires target == -1 || (0 <= target < game.Size() && game.Edge(node, target) && !disabled[target])
      modifies pms[node], tmp
      ensures RowsFit() && RowFits(node)
      ensures Lifted(c0, rows[node], pms[node][..], game.owner[node], game.priority[node], ch != -1)
      ensures MaxOutcome(game, disabled[..], counts[..], c0, rows, pms[node][..], node, target, ch)
      ensures OwnLoop(game, disabled[..], rows, node, target) ==> ch != -1
    {
      hide InRange, Rank, AtLeast, Exactly, Meets, RowsFit, Rows, Lifted;
      if target != -1 {
        var raised := RaiseVia(node, target, game.priority[node], game.owner[node]);
        ch := if raised then target else -1;
        if OwnLoop(game, disabled[..], rows, node, target) {
          LiftedStart(c0, rows[node], game.owner[node], game.priority[node]);
          SelfStep(counts[..], c0, rows[node], rows[node], tmp[..], pms[node][..], game.priority[node], game.owner[node], false, raised);
          LoopRaised(node, rows, game.priority[node], game.owner[node], raised);
        }
      } else {
        ch := RaiseMax(node, rows);
      }
      RowFacts(node);
    }

    method LiftMin(node: nat, ghost rows: seq<seq<int>>) returns (ch: int)
      requires Shaped() && Shrunk() && RowsFit() && node < game.Size() && RowFits(node) && rows == Rows()
      requires !NoneEnabled(game, disabled[..], node, |game.outs[node]|)
      modifies pms[node], tmp, best, strategy
      ensures RowsFit() && RowFits(node)
      ensures strategy[..] == old(strategy[..])[node := strategy[node]] && (ch == -1 || ch == strategy[node])
      ensures Lifted(c0, rows[node], pms[node][..], 1 - game.owner[node], game.priority[node], ch != -1)
      ensures MinOutcome(game, disabled[..], counts[..], c0, rows, pms[node][..], node, strategy[node], ch != -1)
    {
      hide InRange, Rank, AtLeast, Exactly, Meets, Rows, Lifted, Lowest, Progressed;
      ch := RaiseMin(node, rows);
      RowFacts(node);
      assert LowestBy(game, disabled[..], counts[..], c0, rows, node, strategy[node], best[..]);
      forall v: nat | v < game.Size() ensures RowFits(v) {
        if v != node { assert old(RowFits(v)); }
      }
    }

    ghost predicate CountedFor(rows: seq<seq<int>>)
      requires Shaped() && |rows| == game.Size() && forall v :: 0 <= v < game.Size() ==> |rows[v]| >= 2
      reads counts, disabled
    {
      forall d: nat :: d < k ==> counts[d] == Open(game, disabled[..], rows, d, game.Size())
    }

    /** A vertex whose measure just became Top for the player of its priority can no longer be on a cycle won by it. */
    method SettleCounts(node: nat, raised0: bool, raised1: bool, ghost rows: seq<seq<int>>)
      requires Shaped() && Shrunk() && RowsFit() && node < game.Size() && !disabled[node] && Others(node, rows)
      requires (forall v :: 0 <= v < game.Size() ==> |rows[v]| >= 2) && CountedFor(rows)
      requires LiftedFor(c0, rows[node], pms[node][..], 0, game.priority[node], raised0)
      requires LiftedFor(c0, rows[node], pms[node][..], 1, game.priority[node], raised1)
      modifies counts
      ensures Valid()
    {
      hide InRange, Measure, Rank, Open, LiftedFor, Game.Valid;
      var pm, d := pms[node], game.priority[node];
      ghost var n, dis, now := game.Size(), disabled[..], Rows();
      LiftedForRank(c0, rows[node], pm[..], 0, d, raised0);
      LiftedForRank(c0, rows[node], pm[..], 1, d, raised1);
      forall e: nat | e < k
        ensures Open(game, dis, rows, e, n) - (if OpenAt(game, dis, rows, e, node) then 1 else 0)
             == Open(game, dis, now, e, n) - (if OpenAt(game, dis, now, e, node) then 1 else 0)
      {
        OpenChange(game, dis, rows, now, e, n, node);
      }
      if raised0 && pm[0] == -1 && d % 2 == 0 { counts[d] := counts[d] - 1; }
      if raised1 && pm[1] == -1 && d % 2 == 1 { counts[d] := counts[d] - 1; }
      forall e: nat | e < k ensures counts[e] == Open(game, dis, now, e, n) {
        assert old(counts[e]) == Open(game, dis, rows, e, n);
      }
      assert RowsFit();
    }

    lemma AlreadyTop(node: nat)
      requires Shaped() && node < game.Size() && RowFits(node)
      requires pms[node][0] == -1 && pms[node][1] == -1
      ensures var pl := game.owner[node];
        && LiftedFor(c0, pms[node][..], pms[node][..], pl, game.priority[node], false)
        && LiftedFor(c0, pms[node][..], pms[node][..], 1 - pl, game.priority[node], false)
        && pms[node][pl] == -1 && pms[node][1 - pl] == -1
    {
    }

    lemma CountedNow()
      requires Valid()
      ensures CountedFor(Rows())
    {
    }

    lemma TableNow()
      requires Shaped() && RowsFit()
      ensures TableFits(c0, Rows())
    {
      ghost var rows := Rows();
      forall v | 0 <= v < |rows| ensures |rows[v]| == |c0| && Measure(c0, rows[v], 0) && Measure(c0, rows[v], 1) {
        var u: nat := v;
        assert RowFits(u);
      }
    }

    /** Lift `node`: raise the measures of both players as far as its successors (or `target` alone) demand. It never
        lowers a measure and reports exactly whether it raised one, however much the bounds have shrunk. */
    method Lift(node: nat, target: int) returns (lifted: bool, ghost chMax: int, ghost chMin: int)
      requires Valid() && node < game.Size() && !disabled[node] && RowFits(node)
      requires target == -1 || (0 <= target < game.Size() && game.Edge(node, target) && !disabled[target])
      requires !NoneEnabled(game, disabled[..], node, |game.outs[node]|)
      modifies pms[node], tmp, best, strategy, counts
      ensures Valid() && RowFits(node)
      ensures if lifted then LiftStep(c0, old(Rows()), Rows(), node) else Rows() == old(Rows())
      ensures lifted <==> chMax != -1 || chMin != -1
      ensures LiftedFor(c0, old(pms[node][..]), pms[node][..], game.owner[node], game.priority[node], chMax != -1)
      ensures LiftedFor(c0, old(pms[node][..]), pms[node][..], 1 - game.owner[node], game.priority[node], chMin != -1)
      ensures if old(pms[node][game.owner[node]] == -1) then chMax == -1
        else MaxOutcome(game, disabled[..], old(counts[..]), c0, old(Rows()), pms[node][..], node, target, chMax)
      ensures OwnLoop(game, disabled[..], old(Rows()), node, target) ==> lifted && chMax != -1
      ensures if old(pms[node][1 - game.owner[node]] == -1) || (target != -1 && target != old(strategy[node])) then
          chMin == -1 && strategy[..] == old(strategy[..])
        else
          strategy[..] == old(strategy[..])[node := strategy[node]]
          && MinOutcome(game, disabled[..], old(counts[..]), c0, old(Rows()), pms[node][..], node, strategy[node], chMin != -1)
    {
      hide InRange, Measure, Rank, LiftedFor, MaxOutcome, MinOutcome, Lifted, Game.Valid, Counted, RowsFit, CountedFor, TableFits, LiftStep;
      Sizes(game);
      if pms[node][0] == -1 && pms[node][1] == -1 {
        AlreadyTop(node);
        lifted, chMax, chMin := false, -1, -1;
        return;
      }
      var raisedMax, raisedMin;
      ghost var rows := Rows();
      CountedNow();
      TableNow();
      RowFacts(node);
      Sizes(game);
      raisedMax, raisedMin, chMax, chMin := LiftBoth(node, target, rows);
      var pl := game.owner[node];
      SettleCounts(node, if pl == 0 then raisedMax else raisedMin, if pl == 0 then raisedMin else raisedMax, rows);
      lifted := raisedMax || raisedMin;
      TableNow();
      IsLiftStep(c0, rows, Rows(), node, pl, game.priority[node], raisedMax, raisedMin);
    }

    method LiftBoth(node: nat, target: int, ghost rows: seq<seq<int>>) returns (raisedMax: bool, raisedMin: bool, ghost chMax: int, ghost chMin: int)
      requires Shaped() && Shrunk() && RowsFit() && node < game.Size() && RowFits(node) && rows == Rows()
      requires target == -1 || (0 <= target < game.Size() && game.Edge(node, target) && !disabled[target])
      requires !NoneEnabled(game, disabled[..], node, |game.outs[node]|)
      modifies pms[node], tmp, best, strategy
      ensures RowsFit() && RowFits(node) && Others(node, rows)
      ensures raisedMax == (chMax != -1) && raisedMin == (chMin != -1)
      ensures LiftedFor(c0, rows[node], pms[node][..], game.owner[node], game.priority[node], raisedMax)
      ensures LiftedFor(c0, rows[node], pms[node][..], 1 - game.owner[node], game.priority[node], raisedMin)
      ensures if rows[node][game.owner[node]] == -1 then chMax == -1
        else MaxOutcome(game, disabled[..], counts[..], c0, rows, pms[node][..], node, target, chMax)
      ensures OwnLoop(game, disabled[..], rows, node, target) ==> chMax != -1
      ensures if rows[node][1 - game.owner[node]] == -1 || (target != -1 && target != old(strategy[node])) then
          chMin == -1 && strategy[..] == old(strategy[..])
        else
          strategy[..] == old(strategy[..])[node := strategy[node]]
          && MinOutcome(game, disabled[..], counts[..], c0, rows, pms[node][..], node, strategy[node], chMin != -1)
    {
      hide InRange, Measure, Rank, LiftedFor, MaxOutcome, MinOutcome, Lifted, Game.Valid, RowsFit;
      Sizes(game);
      RowFacts(node);
      var pm, pl, d := pms[node], game.owner[node], game.priority[node];
      var chTop, chLow := -1, -1;
      LiftedStart(c0, rows[node], pl, d);
      if pm[pl] != -1 { chTop := LiftMax(node, target, rows); }
      ghost var between := Rows();
      RowFacts(node);
      LiftedStart(c0, between[node], 1 - pl, d);
      if pm[1 - pl] != -1 && (target == -1 || target == strategy[node]) { chLow := LiftMin(node, between); }
      LiftedBoth(c0, rows[node], between[node], pms[node][..], pl, d, chTop != -1, chLow != -1);
      raisedMax, raisedMin, chMax, chMin := chTop != -1, chLow != -1, chTop, chLow;
      if rows[node][pl] != -1 {
        MaxOutcomeKept(game, disabled[..], counts[..], c0, rows, between[node], pms[node][..], node, target, chTop);
      }
      if !(rows[node][1 - pl] == -1 || (target != -1 && target != old(strategy[node]))) {
        MinOutcomeKept(game, disabled[..], counts[..], c0, rows, between, pms[node][..], node, strategy[node], chLow != -1);
      }
    }
  }
}
