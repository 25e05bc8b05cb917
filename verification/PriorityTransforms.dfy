/** The transformations of the priorities of a sorted game (game.cpp), and why they do not change who wins. */
module PriorityTransforms {
  import opened ParityGames

  predicate Ascending(p: seq<nat>) {
    forall i, j :: 0 <= i <= j < |p| ==> p[i] <= p[j]
  }

  function Values(p: seq<nat>): set<nat> {
    set x | x in p
  }

  /** The highest number on a nonempty set of positions has parity `q`. */
  ghost predicate HighestHas(p: seq<nat>, w: seq<nat>, q: nat) {
    && (forall k :: 0 <= k < |w| ==> w[k] < |p|)
    && exists k :: 0 <= k < |w| && p[w[k]] % 2 == q && forall j :: 0 <= j < |w| ==> p[w[j]] <= p[w[k]]
  }

  ghost predicate LowestHas(p: seq<nat>, w: seq<nat>, q: nat) {
    && (forall k :: 0 <= k < |w| ==> w[k] < |p|)
    && exists k :: 0 <= k < |w| && p[w[k]] % 2 == q && forall j :: 0 <= j < |w| ==> p[w[k]] <= p[w[j]]
  }

  // ---------------------------------------------------------------------------------------------------------
  // The rules of the transformations
  // ---------------------------------------------------------------------------------------------------------

  /** Every vertex gets a priority of its own. */
  function InflateStep(a: nat, b: nat): nat {
    if a % 2 != b % 2 then 1 else 2
  }

  /** No priority is skipped. */
  function CompressStep(a: nat, b: nat): nat {
    if a % 2 != b % 2 then 1 else 0
  }

  /** Equal priorities stay equal, different ones stay different. */
  function RenumberStep(a: nat, b: nat): nat {
    if a % 2 != b % 2 then 1 else if a != b then 2 else 0
  }

  /** `t` starts at 0 or 1 and grows by `step` from one vertex to the next. */
  ghost predicate Stepped(s: seq<nat>, t: seq<nat>, step: (nat, nat) -> nat) {
    && |t| == |s|
    && (|s| > 0 ==> t[0] == s[0] % 2)
    && forall i: nat :: i + 1 < |s| ==> t[i + 1] == t[i] + step(s[i], s[i + 1])
  }

  /** A step keeps the parity in step with the original. */
  ghost predicate KeepsParity(step: (nat, nat) -> nat) {
    forall a: nat, b: nat :: (a + step(a, b)) % 2 == b % 2
  }

  lemma {:induction false} SteppedParity(s: seq<nat>, t: seq<nat>, step: (nat, nat) -> nat, i: nat)
    requires Stepped(s, t, step) && KeepsParity(step) && i < |s|
    ensures t[i] % 2 == s[i] % 2
  {
    if i > 0 {
      SteppedParity(s, t, step, i - 1);
      assert t[i - 1 + 1] == t[i - 1] + step(s[i - 1], s[i - 1 + 1]);
      assert (s[i - 1] + step(s[i - 1], s[i])) % 2 == s[i] % 2;
    }
  }

  lemma {:induction false} SteppedAscends(s: seq<nat>, t: seq<nat>, step: (nat, nat) -> nat, i: nat, j: nat)
    requires Stepped(s, t, step) && i <= j < |s|
    ensures t[i] <= t[j]
    decreases j - i
  {
    if i < j {
      SteppedAscends(s, t, step, i, j - 1);
      assert t[j - 1 + 1] == t[j - 1] + step(s[j - 1], s[j - 1 + 1]);
    }
  }

  lemma Steps()
    ensures KeepsParity(InflateStep) && KeepsParity(CompressStep) && KeepsParity(RenumberStep)
  {
  }

  // ---------------------------------------------------------------------------------------------------------
  // What is kept
  // ---------------------------------------------------------------------------------------------------------

  ghost predicate Inside(p: seq<nat>, w: seq<nat>) {
    forall k :: 0 <= k < |w| ==> w[k] < |p|
  }

  ghost predicate HighestAt(p: seq<nat>, w: seq<nat>, k: nat) {
    Inside(p, w) && k < |w| && forall j :: 0 <= j < |w| ==> p[w[j]] <= p[w[k]]
  }

  ghost predicate LowestAt(p: seq<nat>, w: seq<nat>, k: nat) {
    Inside(p, w) && k < |w| && forall j :: 0 <= j < |w| ==> p[w[k]] <= p[w[j]]
  }

  lemma HighestParity(p: seq<nat>, w: seq<nat>, k: nat, q: nat)
    requires HighestAt(p, w, k)
    ensures HighestHas(p, w, q) <==> p[w[k]] % 2 == q
  {
  }

  lemma LowestParity(p: seq<nat>, w: seq<nat>, k: nat, q: nat)
    requires LowestAt(p, w, k)
    ensures LowestHas(p, w, q) <==> p[w[k]] % 2 == q
  {
  }

  /** In ascending order the greatest position has the highest number. */
  lemma AscendingTop(p: seq<nat>, w: seq<nat>, k: nat)
    requires Ascending(p) && Inside(p, w) && k < |w| && forall j :: 0 <= j < |w| ==> w[j] <= w[k]
    ensures HighestAt(p, w, k)
  {
  }

  lemma AscendingBottom(p: seq<nat>, w: seq<nat>, k: nat)
    requires Ascending(p) && Inside(p, w) && k < |w| && forall j :: 0 <= j < |w| ==> w[k] <= w[j]
    ensures LowestAt(p, w, k)
  {
  }

  lemma DescendingTop(p: seq<nat>, w: seq<nat>, k: nat)
    requires Descending(p) && Inside(p, w) && k < |w| && forall j :: 0 <= j < |w| ==> w[k] <= w[j]
    ensures HighestAt(p, w, k)
  {
  }

  lemma NothingHas(p: seq<nat>, w: seq<nat>, q: nat)
    requires w == [] || !Inside(p, w)
    ensures !HighestHas(p, w, q) && !LowestHas(p, w, q)
  {
  }

  lemma SameInside(s: seq<nat>, t: seq<nat>, w: seq<nat>)
    requires |s| == |t|
    ensures Inside(s, w) <==> Inside(t, w)
  {
  }

  /** With both in ascending order and the same parities, the highest priority on any set of vertices keeps its parity. */
  lemma SameTop(s: seq<nat>, t: seq<nat>, w: seq<nat>, q: nat)
    requires |s| == |t| && Ascending(s) && Ascending(t) && forall i :: 0 <= i < |s| ==> s[i] % 2 == t[i] % 2
    ensures HighestHas(s, w, q) <==> HighestHas(t, w, q)
  {
    hide HighestHas, Ascending;
    SameInside(s, t, w);
    if w == [] || !Inside(s, w) {
      NothingHas(s, w, q);
      NothingHas(t, w, q);
    } else {
      var k := HighestPosition(w);
      AscendingTop(s, w, k);
      AscendingTop(t, w, k);
      HighestParity(s, w, k, q);
      HighestParity(t, w, k, q);
    }
  }

  /** The opposite parities in the same order. */
  lemma FlippedTop(s: seq<nat>, t: seq<nat>, w: seq<nat>, q: Player)
    requires |s| == |t| && Ascending(s) && Ascending(t) && forall i :: 0 <= i < |s| ==> s[i] % 2 == 1 - t[i] % 2
    ensures HighestHas(s, w, q) <==> HighestHas(t, w, 1 - q)
  {
    hide HighestHas, Ascending;
    SameInside(s, t, w);
    if w == [] || !Inside(s, w) {
      NothingHas(s, w, q);
      NothingHas(t, w, 1 - q);
    } else {
      var k := HighestPosition(w);
      AscendingTop(s, w, k);
      AscendingTop(t, w, k);
      HighestParity(s, w, k, q);
      HighestParity(t, w, k, 1 - q);
    }
  }

  lemma {:induction false} LowestPosition(w: seq<nat>) returns (k: nat)
    requires |w| > 0
    ensures k < |w| && forall j :: 0 <= j < |w| ==> w[k] <= w[j]
  {
    if |w| == 1 {
      k := 0;
    } else {
      k := LowestPosition(w[..|w| - 1]);
      if w[k] > w[|w| - 1] { k := |w| - 1; }
    }
  }

  predicate Descending(p: seq<nat>) {
    forall i, j :: 0 <= i <= j < |p| ==> p[i] >= p[j]
  }

  /** The lowest priority becomes the highest one. */
  lemma LowestBecomesTop(s: seq<nat>, t: seq<nat>, w: seq<nat>, q: nat)
    requires |s| == |t| && Ascending(s) && Descending(t) && forall i :: 0 <= i < |s| ==> s[i] % 2 == t[i] % 2
    ensures LowestHas(s, w, q) <==> HighestHas(t, w, q)
  {
    hide LowestHas, HighestHas, Ascending, Descending;
    SameInside(s, t, w);
    if w == [] || !Inside(s, w) {
      NothingHas(s, w, q);
      NothingHas(t, w, q);
    } else {
      var k := LowestPosition(w);
      AscendingBottom(s, w, k);
      DescendingTop(t, w, k);
      LowestParity(s, w, k, q);
      HighestParity(t, w, k, q);
    }
  }

  // ---------------------------------------------------------------------------------------------------------
  // What the different transformations promise
  // ---------------------------------------------------------------------------------------------------------

  /** After inflating, no two vertices share a priority. */
  lemma {:induction false} InflateUnique(s: seq<nat>, t: seq<nat>, i: nat, j: nat)
    requires Stepped(s, t, InflateStep) && i < j < |s|
    ensures t[i] < t[j]
    decreases j
  {
    assert t[j - 1 + 1] == t[j - 1] + InflateStep(s[j - 1], s[j - 1 + 1]);
    if i < j - 1 { InflateUnique(s, t, i, j - 1); }
  }

  /** After compressing, every priority between the lowest and the highest is in use. */
  lemma {:induction false} CompressGapless(s: seq<nat>, t: seq<nat>, x: nat, j: nat)
    requires Stepped(s, t, CompressStep) && j < |s| && t[0] <= x <= t[j]
    ensures x in t
    decreases j
  {
    if j == 0 || x == t[j] {
      assert x == t[0] || x == t[j];
    } else {
      assert t[j - 1 + 1] == t[j - 1] + CompressStep(s[j - 1], s[j - 1 + 1]);
      CompressGapless(s, t, x, j - 1);
    }
  }

  /** After renumbering, vertices share a priority exactly if they did before. */
  lemma {:induction false} RenumberFaithful(s: seq<nat>, t: seq<nat>, i: nat, j: nat)
    requires Ascending(s) && Stepped(s, t, RenumberStep) && i <= j < |s|
    ensures t[i] == t[j] <==> s[i] == s[j]
    decreases j
  {
    if i < j {
      assert t[j - 1 + 1] == t[j - 1] + RenumberStep(s[j - 1], s[j - 1 + 1]);
      SteppedAscends(s, t, RenumberStep, i, j - 1);
      RenumberFaithful(s, t, i, j - 1);
    }
  }

  /** In ascending order, one more number is a new value exactly if it differs from the last one. */
  lemma ValuesNext(t: seq<nat>, x: nat)
    requires t != [] && Ascending(t + [x])
    ensures |Values(t + [x])| == |Values(t)| + if x == t[|t| - 1] then 0 else 1
  {
    var u := t + [x];
    assert forall i :: 0 <= i < |t| ==> u[i] == t[i] && u[i] <= u[|t| - 1] <= u[|t|];
    if x == t[|t| - 1] {
      assert Values(u) == Values(t);
    } else {
      assert Values(u) == Values(t) + {x};
    }
  }

  // ---------------------------------------------------------------------------------------------------------
  // Solutions
  // ---------------------------------------------------------------------------------------------------------

  lemma TopIsHighest(g: Game, w: seq<nat>, p: Player)
    requires g.Valid()
    ensures TopParity(g, w, p) <==> HighestHas(g.priority, w, p)
  {
  }

  lemma SameMoves(g: Game, h: Game, dom: set<nat>, win: seq<Player>, str: seq<int>, w: seq<nat>)
    requires Shape(g, dom, win, str) && Shape(h, dom, win, str) && h.owner == g.owner && h.outs == g.outs
    ensures ClosedWalk(g, dom, win, str, w) <==> ClosedWalk(h, dom, win, str, w)
    ensures RegionsClosed(g, dom, win, str) <==> RegionsClosed(h, dom, win, str)
  {
    assert forall u, v :: Move(g, dom, win, str, u, v) <==> Move(h, dom, win, str, u, v);
  }

  /** New priorities in ascending order with the same parities: the solutions are the same. */
  lemma SameSolutions(g: Game, t: seq<nat>, dom: set<nat>, win: seq<Player>, str: seq<int>)
    requires Shape(g, dom, win, str) && g.Sorted() && |t| == g.Size() && Ascending(t)
    requires forall v :: 0 <= v < g.Size() ==> t[v] % 2 == g.priority[v] % 2
    ensures var h := g.(priority := t);
      Shape(h, dom, win, str) && (CorrectSolution(g, dom, win, str) <==> CorrectSolution(h, dom, win, str))
  {
    var h := g.(priority := t);
    SameMoves(g, h, dom, win, str, []);
    forall w ensures (ClosedWalk(g, dom, win, str, w) ==> Won(g, win, w)) <==> (ClosedWalk(h, dom, win, str, w) ==> Won(h, win, w)) {
      SameMoves(g, h, dom, win, str, w);
      if |w| > 0 && w[0] < |win| {
        TopIsHighest(g, w, win[w[0]]);
        TopIsHighest(h, w, win[w[0]]);
        SameTop(g.priority, t, w, win[w[0]]);
      }
    }
  }

  function Flip(a: seq<Player>): (b: seq<Player>)
    ensures |b| == |a| && forall v :: 0 <= v < |a| ==> b[v] == 1 - a[v]
  {
    seq(|a|, v requires 0 <= v < |a| => 1 - a[v])
  }

  /** With owners and parities swapped, the winners are swapped. */
  lemma FlippedSolutions(g: Game, t: seq<nat>, dom: set<nat>, win: seq<Player>, str: seq<int>)
    requires Shape(g, dom, win, str) && g.Sorted() && |t| == g.Size() && Ascending(t)
    requires forall v :: 0 <= v < g.Size() ==> t[v] % 2 == 1 - g.priority[v] % 2
    ensures var h := g.(priority := t, owner := Flip(g.owner));
      Shape(h, dom, Flip(win), str) && (CorrectSolution(g, dom, win, str) <==> CorrectSolution(h, dom, Flip(win), str))
  {
    var h := g.(priority := t, owner := Flip(g.owner));
    FlippedMoves(g, h, dom, win, str, []);
    forall w ensures (ClosedWalk(g, dom, win, str, w) ==> Won(g, win, w)) <==>
      (ClosedWalk(h, dom, Flip(win), str, w) ==> Won(h, Flip(win), w))
    {
      FlippedMoves(g, h, dom, win, str, w);
      if |w| > 0 && w[0] < |win| {
        TopIsHighest(g, w, win[w[0]]);
        TopIsHighest(h, w, 1 - win[w[0]]);
        FlippedTop(g.priority, t, w, win[w[0]]);
      }
    }
  }

  lemma FlippedMoves(g: Game, h: Game, dom: set<nat>, win: seq<Player>, str: seq<int>, w: seq<nat>)
    requires Shape(g, dom, win, str) && Shape(h, dom, Flip(win), str) && h.owner == Flip(g.owner) && h.outs == g.outs
    ensures ClosedWalk(g, dom, win, str, w) <==> ClosedWalk(h, dom, Flip(win), str, w)
    ensures RegionsClosed(g, dom, win, str) <==> RegionsClosed(h, dom, Flip(win), str)
  {
    assert forall u, v :: Move(g, dom, win, str, u, v) <==> Move(h, dom, Flip(win), str, u, v);
  }

  /** A correct solution of the game in which the lowest priority of a cycle decides. */
  ghost predicate CorrectMinSolution(g: Game, dom: set<nat>, win: seq<Player>, str: seq<int>)
    requires Shape(g, dom, win, str)
  {
    && RegionsClosed(g, dom, win, str)
    && forall w :: ClosedWalk(g, dom, win, str, w) ==> |w| > 0 && w[0] < |win| && LowestHas(g.priority, w, win[w[0]])
  }

  /** New priorities in descending order with the same parities turn a min-parity game into a max-parity game. */
  lemma MinToMax(g: Game, t: seq<nat>, dom: set<nat>, win: seq<Player>, str: seq<int>)
    requires Shape(g, dom, win, str) && g.Sorted() && |t| == g.Size() && Descending(t)
    requires forall v :: 0 <= v < g.Size() ==> t[v] % 2 == g.priority[v] % 2
    ensures var h := g.(priority := t);
      Shape(h, dom, win, str) && (CorrectMinSolution(g, dom, win, str) <==> CorrectSolution(h, dom, win, str))
  {
    var h := g.(priority := t);
    SameMoves(g, h, dom, win, str, []);
    forall w ensures (ClosedWalk(g, dom, win, str, w) ==> |w| > 0 && w[0] < |win| && LowestHas(g.priority, w, win[w[0]])) <==>
      (ClosedWalk(h, dom, win, str, w) ==> Won(h, win, w))
    {
      SameMoves(g, h, dom, win, str, w);
      if |w| > 0 && w[0] < |win| {
        TopIsHighest(h, w, win[w[0]]);
        LowestBecomesTop(g.priority, t, w, win[w[0]]);
      }
    }
  }

  // ---------------------------------------------------------------------------------------------------------
  // In place
  // ---------------------------------------------------------------------------------------------------------

  /** What a transformation of the priorities keeps: order, parities, and with them all solutions. */
  ghost predicate Equivalent(s: seq<nat>, t: seq<nat>) {
    |t| == |s| && Ascending(t) && forall v :: 0 <= v < |s| ==> t[v] % 2 == s[v] % 2
  }

  lemma SteppedEquivalent(s: seq<nat>, t: seq<nat>, step: (nat, nat) -> nat)
    requires Stepped(s, t, step) && KeepsParity(step)
    ensures Equivalent(s, t)
  {
    forall v | 0 <= v < |s| ensures t[v] % 2 == s[v] % 2 { SteppedParity(s, t, step, v); }
    forall i, j | 0 <= i <= j < |t| ensures t[i] <= t[j] { SteppedAscends(s, t, step, i, j); }
  }

  ghost predicate AtMost(t: seq<nat>, u: seq<nat>) {
    |t| == |u| && forall v :: 0 <= v < |t| ==> t[v] <= u[v]
  }

  /** Vertices share a number in `u` exactly if they do in `s`. */
  ghost predicate SameClasses(s: seq<nat>, u: seq<nat>) {
    |u| == |s| && forall i, j :: 0 <= i <= j < |s| ==> (u[i] == u[j] <==> s[i] == s[j])
  }

  ghost predicate Distinct(u: seq<nat>) {
    forall i, j :: 0 <= i < j < |u| ==> u[i] < u[j]
  }

  /** `t` is, at every vertex, the smallest that keeps order and parities and gives no two vertices the same priority. */
  ghost predicate LeastInflated(s: seq<nat>, t: seq<nat>) {
    && Equivalent(s, t) && Distinct(t)
    && forall u :: Equivalent(s, u) && Distinct(u) ==> AtMost(t, u)
  }

  /** `t` is, at every vertex, the smallest that keeps order and parities. */
  ghost predicate LeastCompressed(s: seq<nat>, t: seq<nat>) {
    && Equivalent(s, t)
    && forall u :: Equivalent(s, u) ==> AtMost(t, u)
  }

  /** `t` is, at every vertex, the smallest that keeps order, parities, and which priorities are equal. */
  ghost predicate LeastRenumbered(s: seq<nat>, t: seq<nat>) {
    && Equivalent(s, t) && SameClasses(s, t)
    && forall u :: Equivalent(s, u) && SameClasses(s, u) ==> AtMost(t, u)
  }

  /** The order is turned around. */
  ghost predicate TurnedAround(s: seq<nat>, u: seq<nat>) {
    |u| == |s| && Descending(u) && (forall v :: 0 <= v < |s| ==> u[v] % 2 == s[v] % 2)
  }

  /** `t` is, at every vertex, the smallest that turns the order around and keeps parities and which priorities are equal. */
  ghost predicate LeastTurnedAround(s: seq<nat>, t: seq<nat>) {
    && TurnedAround(s, t) && SameClasses(s, t)
    && forall u :: TurnedAround(s, u) && SameClasses(s, u) ==> AtMost(t, u)
  }

  lemma {:induction false} InflateLow(s: seq<nat>, t: seq<nat>, u: seq<nat>, i: nat)
    requires Stepped(s, t, InflateStep) && Equivalent(s, u) && Distinct(u) && i < |s|
    ensures t[i] <= u[i]
  {
    if i > 0 {
      InflateLow(s, t, u, i - 1);
      assert t[i - 1 + 1] == t[i - 1] + InflateStep(s[i - 1], s[i - 1 + 1]);
      assert u[i - 1] < u[i];
    }
  }

  lemma InflateLeast(s: seq<nat>, t: seq<nat>)
    requires Stepped(s, t, InflateStep) && Equivalent(s, t)
    ensures LeastInflated(s, t)
  {
    forall i, j | 0 <= i < j < |t| ensures t[i] < t[j] { InflateUnique(s, t, i, j); }
    forall u | Equivalent(s, u) && Distinct(u) ensures AtMost(t, u) {
      forall v | 0 <= v < |t| ensures t[v] <= u[v] { InflateLow(s, t, u, v); }
    }
  }

  lemma {:induction false} CompressLow(s: seq<nat>, t: seq<nat>, u: seq<nat>, i: nat)
    requires Stepped(s, t, CompressStep) && Equivalent(s, u) && i < |s|
    ensures t[i] <= u[i]
  {
    if i > 0 {
      CompressLow(s, t, u, i - 1);
      assert t[i - 1 + 1] == t[i - 1] + CompressStep(s[i - 1], s[i - 1 + 1]);
      assert u[i - 1] <= u[i] && u[i - 1] % 2 == s[i - 1] % 2 && u[i] % 2 == s[i] % 2;
    }
  }

  lemma CompressLeast(s: seq<nat>, t: seq<nat>)
    requires Stepped(s, t, CompressStep) && Equivalent(s, t)
    ensures LeastCompressed(s, t)
  {
    forall u | Equivalent(s, u) ensures AtMost(t, u) {
      forall v | 0 <= v < |t| ensures t[v] <= u[v] { CompressLow(s, t, u, v); }
    }
  }

  lemma {:induction false} RenumberLow(s: seq<nat>, t: seq<nat>, u: seq<nat>, i: nat)
    requires Stepped(s, t, RenumberStep) && Equivalent(s, u) && SameClasses(s, u) && i < |s|
    ensures t[i] <= u[i]
  {
    if i > 0 {
      RenumberLow(s, t, u, i - 1);
      assert t[i - 1 + 1] == t[i - 1] + RenumberStep(s[i - 1], s[i - 1 + 1]);
      assert u[i - 1] <= u[i] && u[i - 1] % 2 == s[i - 1] % 2 && u[i] % 2 == s[i] % 2;
      assert u[i - 1] == u[i] <==> s[i - 1] == s[i];
    }
  }

  lemma RenumberLeast(s: seq<nat>, t: seq<nat>)
    requires Ascending(s) && Stepped(s, t, RenumberStep) && Equivalent(s, t)
    ensures LeastRenumbered(s, t)
  {
    forall i, j | 0 <= i <= j < |s| ensures t[i] == t[j] <==> s[i] == s[j] { RenumberFaithful(s, t, i, j); }
    forall u | Equivalent(s, u) && SameClasses(s, u) ensures AtMost(t, u) {
      forall v | 0 <= v < |t| ensures t[v] <= u[v] { RenumberLow(s, t, u, v); }
    }
  }

  /** The first `i` priorities have been reassigned, `d` different ones so far, the last of which is `prio`. */
  ghost predicate Reassigned(s: seq<nat>, t: seq<nat>, step: (nat, nat) -> nat, i: nat, prio: int, d: nat)
    requires i <= |s| == |t|
  {
    && Stepped(s[..i], t[..i], step) && t[i..] == s[i..]
    && (if i == 0 then prio == -1 && d == 1 else prio == t[i - 1] && d == |Values(t[..i])|)
  }

  lemma ReassignNext(s: seq<nat>, t: seq<nat>, t': seq<nat>, step: (nat, nat) -> nat, i: nat, prio: int, d: nat, prio': nat)
    requires i < |s| == |t| && Reassigned(s, t, step, i, prio, d) && t' == t[i := prio']
    requires prio' == if i == 0 then s[0] % 2 else prio + step(s[i - 1], s[i])
    ensures Reassigned(s, t', step, i + 1, prio', if i > 0 && step(s[i - 1], s[i]) > 0 then d + 1 else d)
  {
    assert t'[..i + 1] == t[..i] + [prio'] && t'[i + 1..] == t[i + 1..] == s[i + 1..];
    assert s[..i + 1] == s[..i] + [s[i]];
    var u, v := s[..i + 1], t'[..i + 1];
    forall k: nat | k + 1 < |u| ensures v[k + 1] == v[k] + step(u[k], u[k + 1]) {
      if k + 1 < i { assert t[..i][k + 1] == t[..i][k] + step(s[..i][k], s[..i][k + 1]); }
    }
    forall a, b | 0 <= a <= b < |v| ensures v[a] <= v[b] { SteppedAscends(u, v, step, a, b); }
    if i > 0 {
      ValuesNext(t[..i], prio');
    } else {
      assert Values(t'[..1]) == {prio'};
    }
  }

  /** The parity of the last priority tells the parity of the last vertex. */
  lemma LastParity(s: seq<nat>, t: seq<nat>, step: (nat, nat) -> nat, i: nat, prio: int, d: nat)
    requires i < |s| == |t| && Reassigned(s, t, step, i, prio, d) && KeepsParity(step)
    ensures t[i] == s[i] && (i > 0 ==> prio >= 0 && prio % 2 == s[i - 1] % 2)
  {
    assert t[i] == t[i..][0] == s[i..][0] == s[i];
    if i > 0 {
      SteppedParity(s[..i], t[..i], step, i - 1);
      assert t[..i][i - 1] == t[i - 1] && s[..i][i - 1] == s[i - 1];
    }
  }

  lemma AllReassigned(s: seq<nat>, t: seq<nat>, step: (nat, nat) -> nat, prio: int, d: nat)
    requires |s| == |t| > 0 && Reassigned(s, t, step, |s|, prio, d) && KeepsParity(step)
    ensures Stepped(s, t, step) && Equivalent(s, t) && d == |Values(t)|
  {
    assert s[..|s|] == s && t[..|t|] == t;
    SteppedEquivalent(s, t, step);
  }

  lemma {:induction false} AllDifferent(s: seq<nat>, t: seq<nat>, i: nat)
    requires Stepped(s, t, InflateStep) && i <= |s|
    ensures |Values(t[..i])| == i
  {
    if i == 0 {
      assert Values(t[..0]) == {};
    } else {
      AllDifferent(s, t, i - 1);
      forall a, b | 0 <= a <= b < i ensures t[..i][a] <= t[..i][b] { SteppedAscends(s, t, InflateStep, a, b); }
      assert t[..i] == t[..i - 1] + [t[i - 1]];
      if i == 1 {
        assert Values(t[..1]) == {t[0]};
      } else {
        InflateUnique(s, t, i - 2, i - 1);
        ValuesNext(t[..i - 1], t[i - 1]);
      }
    }
  }

  method Inflate(priority: array<nat>) returns (d: nat)
    requires Ascending(priority[..])
    modifies priority
    ensures Stepped(old(priority[..]), priority[..], InflateStep) && Equivalent(old(priority[..]), priority[..])
    ensures LeastInflated(old(priority[..]), priority[..])
    ensures d == |Values(priority[..])| == priority.Length
  {
    hide Values, Ascending, Equivalent, Reassigned;
    Steps();
    ghost var s := priority[..];
    if priority.Length == 0 { Nothing(s, InflateStep); InflateLeast(s, s); return 0; }
    d := 1;
    var prio: int := -1;
    Start(s, InflateStep);
    for i := 0 to priority.Length
      invariant i > 0 ==> prio >= 0
      invariant i == 0 ==> prio == -1
      invariant Reassigned(s, priority[..], InflateStep, i, prio, d)
    {
      ghost var t, prio0, d0 := priority[..], prio, d;
      LastParity(s, t, InflateStep, i, prio, d);
      var parity := priority[i] % 2;
      if prio == -1 {
        prio := parity;
      } else if parity != prio % 2 {
        prio := prio + 1;
        d := d + 1;
      } else {
        prio := prio + 2;
        d := d + 1;
      }
      priority[i] := prio;
      ReassignNext(s, t, priority[..], InflateStep, i, prio0, d0, prio);
    }
    AllReassigned(s, priority[..], InflateStep, prio, d);
    InflateLeast(s, priority[..]);
    AllDifferent(s, priority[..], |s|);
    assert priority[..][..|s|] == priority[..];
  }

  lemma Nothing(s: seq<nat>, step: (nat, nat) -> nat)
    requires s == []
    ensures Stepped(s, s, step) && Equivalent(s, s) && Values(s) == {}
  {
  }

  lemma Start(s: seq<nat>, step: (nat, nat) -> nat)
    ensures Reassigned(s, s, step, 0, -1, 1)
  {
  }

  method Compress(priority: array<nat>) returns (d: nat)
    requires Ascending(priority[..])
    modifies priority
    ensures Stepped(old(priority[..]), priority[..], CompressStep) && Equivalent(old(priority[..]), priority[..])
    ensures LeastCompressed(old(priority[..]), priority[..])
    ensures d == |Values(priority[..])|
  {
    hide Values, Ascending, Equivalent, Reassigned;
    Steps();
    ghost var s := priority[..];
    if priority.Length == 0 { Nothing(s, CompressStep); CompressLeast(s, s); return 0; }
    d := 1;
    var prio: int := -1;
    Start(s, CompressStep);
    for i := 0 to priority.Length
      invariant i > 0 ==> prio >= 0
      invariant i == 0 ==> prio == -1
      invariant Reassigned(s, priority[..], CompressStep, i, prio, d)
    {
      ghost var t, prio0, d0 := priority[..], prio, d;
      LastParity(s, t, CompressStep, i, prio, d);
      var parity := priority[i] % 2;
      if prio == -1 {
        prio := parity;
      } else if parity != prio % 2 {
        prio := prio + 1;
        d := d + 1;
      }
      priority[i] := prio;
      ReassignNext(s, t, priority[..], CompressStep, i, prio0, d0, prio);
    }
    AllReassigned(s, priority[..], CompressStep, prio, d);
    CompressLeast(s, priority[..]);
  }

  method Renumber(priority: array<nat>) returns (d: nat)
    requires Ascending(priority[..])
    modifies priority
    ensures Stepped(old(priority[..]), priority[..], RenumberStep) && Equivalent(old(priority[..]), priority[..])
    ensures LeastRenumbered(old(priority[..]), priority[..])
    ensures d == |Values(priority[..])|
  {
    hide Values, Ascending, Equivalent, Reassigned;
    Steps();
    ghost var s := priority[..];
    if priority.Length == 0 { Nothing(s, RenumberStep); RenumberLeast(s, s); return 0; }
    d := 1;
    var prio: int, last: int := -1, -1;
    Start(s, RenumberStep);
    for i := 0 to priority.Length
      invariant i > 0 ==> prio >= 0 && last == s[i - 1]
      invariant i == 0 ==> prio == -1
      invariant Reassigned(s, priority[..], RenumberStep, i, prio, d)
    {
      ghost var t, prio0, d0 := priority[..], prio, d;
      LastParity(s, t, RenumberStep, i, prio, d);
      var parity := priority[i] % 2;
      if prio == -1 {
        prio := parity;
      } else if parity != prio % 2 {
        prio := prio + 1;
        d := d + 1;
      } else if last != priority[i] {
        prio := prio + 2;
        d := d + 1;
      }
      last := priority[i];
      priority[i] := prio;
      ReassignNext(s, t, priority[..], RenumberStep, i, prio0, d0, prio);
    }
    AllReassigned(s, priority[..], RenumberStep, prio, d);
    RenumberLeast(s, priority[..]);
  }

  function Incremented(s: seq<nat>): (t: seq<nat>)
    ensures |t| == |s| && forall i :: 0 <= i < |s| ==> t[i] == s[i] + 1
  {
    seq(|s|, i requires 0 <= i < |s| => s[i] + 1)
  }

  lemma IncrementedAscends(s: seq<nat>)
    requires Ascending(s)
    ensures Ascending(Incremented(s))
  {
  }

  /** Swap the players: owners and parities. */
  method EvenOdd(priority: array<nat>, owner: array<Player>)
    requires Ascending(priority[..]) && priority.Length == owner.Length
    modifies priority, owner
    ensures Stepped(Incremented(old(priority[..])), priority[..], RenumberStep)
    ensures Equivalent(Incremented(old(priority[..])), priority[..])
    ensures LeastRenumbered(Incremented(old(priority[..])), priority[..])
    ensures owner[..] == Flip(old(owner[..]))
  {
    hide Values, Ascending, Equivalent, Reassigned, Stepped;
    Steps();
    ghost var s := Incremented(priority[..]);
    ghost var t: seq<nat>, count: nat := s, 1;
    var prio: int, last: int := -1, -1;
    Start(s, RenumberStep);
    for i := 0 to priority.Length
      invariant i > 0 ==> prio >= 0 && last == s[i - 1]
      invariant i == 0 ==> prio == -1
      invariant |t| == priority.Length && forall k :: 0 <= k < i ==> priority[k] == t[k]
      invariant forall k :: i <= k < priority.Length ==> priority[k] + 1 == s[k]
      invariant forall k :: 0 <= k < owner.Length ==> owner[k] == if k < i then 1 - old(owner[k]) else old(owner[k])
      invariant Reassigned(s, t, RenumberStep, i, prio, count)
    {
      ghost var prio0, count0 := prio, count;
      LastParity(s, t, RenumberStep, i, prio, count);
      var d := priority[i] + 1;
      owner[i] := 1 - owner[i];
      var parity := d % 2;
      if prio == -1 {
        prio := parity;
      } else if parity != prio % 2 {
        prio := prio + 1;
        count := count + 1;
      } else if last != d {
        prio := prio + 2;
        count := count + 1;
      }
      last := d;
      priority[i] := prio;
      ReassignNext(s, t, t[i := prio], RenumberStep, i, prio0, count0, prio);
      t := t[i := prio];
    }
    assert priority[..] == t;
    if |s| > 0 { AllReassigned(s, t, RenumberStep, prio, count); } else { Nothing(s, RenumberStep); }
    IncrementedAscends(old(priority[..]));
    RenumberLeast(s, t);
  }

  function Reversed(s: seq<nat>): (t: seq<nat>)
    ensures |t| == |s| && forall i :: 0 <= i < |s| ==> t[i] == s[|s| - 1 - i]
  {
    seq(|s|, i requires 0 <= i < |s| => s[|s| - 1 - i])
  }

  /** Turn the order of the priorities around. */
  method MinMax(priority: array<nat>)
    requires Ascending(priority[..])
    modifies priority
    ensures Stepped(Reversed(old(priority[..])), Reversed(priority[..]), RenumberStep)
    ensures Descending(priority[..])
    ensures LeastTurnedAround(old(priority[..]), priority[..])
    ensures forall v :: 0 <= v < priority.Length ==> priority[v] % 2 == old(priority[v]) % 2
  {
    hide Values, Ascending, Equivalent, Reassigned, Stepped, Descending, Reversed;
    Steps();
    ghost var s, count := Reversed(priority[..]), 1;
    var prio: int, last: int := -1, -1;
    Start(s, RenumberStep);
    var n := priority.Length;
    var i := n - 1;
    while i >= 0
      invariant -1 <= i < n
      invariant i < n - 1 ==> prio >= 0 && last == s[n - 2 - i]
      invariant i == n - 1 ==> prio == -1
      invariant Reassigned(s, Reversed(priority[..]), RenumberStep, n - 1 - i, prio, count)
      decreases i
    {
      ghost var t, j, prio0, count0 := Reversed(priority[..]), n - 1 - i, prio, count;
      LastParity(s, t, RenumberStep, j, prio, count);
      assert t[j] == priority[..][i] == priority[i];
      var parity := priority[i] % 2;
      if prio == -1 {
        prio := parity;
      } else if parity != prio % 2 {
        prio := prio + 1;
        count := count + 1;
      } else if last != priority[i] {
        prio := prio + 2;
        count := count + 1;
      }
      last := priority[i];
      ReversedUpdate(priority[..], i, prio);
      priority[i] := prio;
      ReassignNext(s, t, Reversed(priority[..]), RenumberStep, j, prio0, count0, prio);
      i := i - 1;
    }
    if |s| > 0 {
      AllReassigned(s, Reversed(priority[..]), RenumberStep, prio, count);
    } else {
      assert Reversed(priority[..]) == s;
      Nothing(s, RenumberStep);
    }
    ReversedOrder(old(priority[..]), priority[..]);
    MinMaxLeast(old(priority[..]), priority[..]);
  }

  lemma ReversedUpdate(s: seq<nat>, i: nat, x: nat)
    requires i < |s|
    ensures Reversed(s[i := x]) == Reversed(s)[|s| - 1 - i := x]
  {
  }

  lemma ReversedOrder(s: seq<nat>, t: seq<nat>)
    requires |s| == |t| && Equivalent(Reversed(s), Reversed(t))
    ensures Descending(t) && forall v :: 0 <= v < |s| ==> t[v] % 2 == s[v] % 2
  {
    var n := |s|;
    forall i, j | 0 <= i <= j < n ensures t[i] >= t[j] {
      assert Reversed(t)[n - 1 - j] <= Reversed(t)[n - 1 - i];
    }
    forall v | 0 <= v < n ensures t[v] % 2 == s[v] % 2 {
      assert Reversed(t)[n - 1 - v] % 2 == Reversed(s)[n - 1 - v] % 2;
    }
  }

  /** Although the vertices are marked as ordered before and after it, this transformation leaves them ordered only if
      they all have the same priority. */
  lemma MinMaxOrdered(s: seq<nat>, t: seq<nat>)
    requires Ascending(s) && |t| == |s| && Stepped(Reversed(s), Reversed(t), RenumberStep)
    ensures Ascending(t) <==> forall i, j :: 0 <= i < |s| && 0 <= j < |s| ==> s[i] == s[j]
  {
    var n := |s|;
    forall i, j | 0 <= i <= j < n ensures t[j] <= t[i] && (t[i] == t[j] <==> s[i] == s[j]) {
      MinMaxFaithful(s, t, n - 1 - j, n - 1 - i);
      assert Reversed(t)[n - 1 - j] == t[j] && Reversed(t)[n - 1 - i] == t[i];
    }
    if Ascending(t) {
      forall i, j | 0 <= i < n && 0 <= j < n ensures s[i] == s[j] {
        assert i <= j ==> t[i] <= t[j];
        assert j <= i ==> t[j] <= t[i];
      }
    }
  }

  lemma {:induction false} MinMaxFaithful(s: seq<nat>, t: seq<nat>, i: nat, j: nat)
    requires Ascending(s) && |t| == |s| && Stepped(Reversed(s), Reversed(t), RenumberStep) && i <= j < |s|
    ensures Reversed(t)[i] <= Reversed(t)[j]
    ensures Reversed(t)[i] == Reversed(t)[j] <==> Reversed(s)[i] == Reversed(s)[j]
    decreases j
  {
    if i < j {
      var a, b := Reversed(s), Reversed(t);
      assert b[j - 1 + 1] == b[j - 1] + RenumberStep(a[j - 1], a[j - 1 + 1]);
      assert a[i] >= a[j - 1] >= a[j];
      MinMaxFaithful(s, t, i, j - 1);
    }
  }

  lemma MinMaxLeast(s: seq<nat>, t: seq<nat>)
    requires Ascending(s) && |t| == |s| && Stepped(Reversed(s), Reversed(t), RenumberStep)
    requires TurnedAround(s, t)
    ensures LeastTurnedAround(s, t)
  {
    var n := |s|;
    forall i, j | 0 <= i <= j < n ensures t[i] == t[j] <==> s[i] == s[j] {
      MinMaxFaithful(s, t, n - 1 - j, n - 1 - i);
    }
    forall u | TurnedAround(s, u) && SameClasses(s, u) ensures AtMost(t, u) {
      TurnedBack(s, u);
      forall v | 0 <= v < n ensures t[v] <= u[v] {
        RenumberLow(Reversed(s), Reversed(t), Reversed(u), n - 1 - v);
      }
    }
  }

  lemma TurnedBack(s: seq<nat>, u: seq<nat>)
    requires TurnedAround(s, u) && SameClasses(s, u)
    ensures Equivalent(Reversed(s), Reversed(u)) && SameClasses(Reversed(s), Reversed(u))
  {
    var n := |s|;
    forall i, j | 0 <= i <= j < n
      ensures Reversed(u)[i] <= Reversed(u)[j] && (Reversed(u)[i] == Reversed(u)[j] <==> Reversed(s)[i] == Reversed(s)[j])
    {
      assert u[n - 1 - j] >= u[n - 1 - i];
      assert u[n - 1 - j] == u[n - 1 - i] <==> s[n - 1 - j] == s[n - 1 - i];
    }
  }
}
