/** The invariant of fixpoint iteration with justifications, and its preservation by every turn of the loop. */
module FPJInvariant {
  import opened ParityGames
  import opened FixpointJustification

  // ---------------------------------------------------------------------------------------------------------
  // Blocks of equal parity
  // ---------------------------------------------------------------------------------------------------------

  /** The first enabled vertex from `k` on whose parity is not `p`, or the number of vertices. */
  ghost function NextOther(g: Game, dis: seq<bool>, k: nat, p: Player): (e: nat)
    requires |dis| == g.Size() && k <= g.Size()
    ensures k <= e <= g.Size()
    ensures e < g.Size() ==> !dis[e] && g.Parity(e) != p
    ensures forall v :: k <= v < e && !dis[v] ==> g.Parity(v) == p
    decreases g.Size() - k
  {
    if k == g.Size() then k
    else if !dis[k] && g.Parity(k) != p then k
    else NextOther(g, dis, k + 1, p)
  }

  /** Where the block of enabled vertices with the parity of `v` ends. */
  ghost function BlockEnd(g: Game, dis: seq<bool>, v: nat): nat
    requires |dis| == g.Size() && v < g.Size()
  {
    NextOther(g, dis, v + 1, g.Parity(v))
  }

  lemma BlockEndFrom(g: Game, dis: seq<bool>, k: nat, p: Player, v: nat)
    requires |dis| == g.Size() && k <= v < g.Size() && !dis[v]
    ensures var e := NextOther(g, dis, k, p);
      if v < e then BlockEnd(g, dis, v) == e else BlockEnd(g, dis, v) > e
  {
  }

  // ---------------------------------------------------------------------------------------------------------
  // The invariant
  // ---------------------------------------------------------------------------------------------------------

  /** The enabled vertices that are currently justified. */
  ghost function Just(g: Game, dis: seq<bool>, s: State): set<nat>
    requires Sized(g, s) && |dis| == g.Size()
  {
    set v | v in Dom(dis) && s.justified[v]
  }

  /** The value of `v` is the one its one-step rule gives, and is shared by all it rests on. */
  ghost predicate Locally(g: Game, dis: seq<bool>, s: State, v: nat)
    requires Sized(g, s) && |dis| == g.Size() && v < g.Size()
  {
    && (if s.strategy[v] == -1 then
          Value(g, s.distraction, v) == 1 - g.owner[v]
        else
          0 <= s.strategy[v] < g.Size() && g.Edge(v, s.strategy[v]) && !dis[s.strategy[v]]
          && Value(g, s.distraction, v) == g.owner[v])
    && forall w :: 0 <= w < g.Size() && !dis[w] && Supports(g, s.strategy, v, w) ==>
         Value(g, s.distraction, w) == Value(g, s.distraction, v)
  }

  /** The justifications kept so far are consistent and every cycle of justifications is won. */
  ghost predicate Winning(g: Game, dis: seq<bool>, s: State)
    requires Sized(g, s) && |dis| == g.Size()
  {
    && (forall v :: v in Dom(dis) && !s.justified[v] ==> !s.distraction[v])
    && (forall v :: v in Just(g, dis, s) ==> Locally(g, dis, s, v))
    && CyclesWon(g, Just(g, dis, s), Winners(g, s), s.strategy)
  }

  /** `b[v]` bounds from below the blocks of the unjustified vertices that `v` rests on, however indirectly.
      A justified vertex thus never rests on an unjustified vertex of a lower block. */
  ghost predicate Labels(g: Game, dis: seq<bool>, s: State, b: seq<int>)
    requires Sized(g, s) && |dis| == g.Size()
  {
    && |b| == g.Size()
    && (forall v :: v in Dom(dis) ==> b[v] >= NextOther(g, dis, s.blockstart, s.curParity))
    && (forall v :: v in Dom(dis) && s.justified[v] ==> b[v] >= BlockEnd(g, dis, v))
    && (forall v :: v in Dom(dis) && !s.justified[v] ==> b[v] == BlockEnd(g, dis, v))
    && (forall v, w :: v in Dom(dis) && s.justified[v] && w in Dom(dis) && Supports(g, s.strategy, v, w) ==> b[v] <= b[w])
  }

  /** The strategy of `v` is its one-step choice, and `v` is queued exactly when that choice flips its value. */
  ghost predicate Evaluated(g: Game, dis: seq<bool>, s: State, v: nat)
    requires Sized(g, s) && |dis| == g.Size() && v < g.Size()
  {
    if s.strategy[v] == -1 then
      && (forall w :: w in Dom(dis) && g.Edge(v, w) ==> Value(g, s.distraction, w) == 1 - g.owner[v])
      && (v in s.q <==> 1 - g.owner[v] != s.curParity)
    else
      && s.strategy[v] >= 0 && s.strategy[v] in Dom(dis) && g.Edge(v, s.strategy[v])
      && Value(g, s.distraction, s.strategy[v]) == g.owner[v]
      && (v in s.q <==> g.owner[v] != s.curParity)
  }

  /** All below the block is justified, and the block is evaluated up to `i`. */
  ghost predicate Scanning(g: Game, dis: seq<bool>, s: State)
    requires Sized(g, s) && |dis| == g.Size()
  {
    && s.curParity == g.Parity(s.blockstart)
    && (s.blockstart == 0 || !dis[s.blockstart])
    && s.blockstart <= s.i <= NextOther(g, dis, s.blockstart, s.curParity)
    && (forall v :: v in Dom(dis) && v < s.blockstart ==> s.justified[v])
    && (forall v :: 0 <= v < g.Size() && s.justified[v] ==> v == 0 || !dis[v])
    && (forall j, k :: 0 <= j < k < |s.q| ==> s.q[j] < s.q[k])
    && (forall k :: 0 <= k < |s.q| ==> s.blockstart <= s.q[k] < s.i && !s.justified[s.q[k]] && (s.q[k] == 0 || !dis[s.q[k]]))
    && (forall v :: v in Dom(dis) && s.blockstart <= v < s.i && !s.justified[v] ==> Evaluated(g, dis, s, v))
  }

  ghost predicate Core(g: Game, dis: seq<bool>, s: State) {
    Instance(g, dis) && Sized(g, s) && Winning(g, dis, s) && Scanning(g, dis, s)
  }

  ghost predicate Inv(g: Game, dis: seq<bool>, s: State) {
    Core(g, dis, s) && exists b :: Labels(g, dis, s, b)
  }

  lemma InitialInv(g: Game, dis: seq<bool>, strategy: seq<int>)
    requires Instance(g, dis) && |strategy| == g.Size()
    ensures Inv(g, dis, Initial(g, strategy))
  {
    var s := Initial(g, strategy);
    var b := seq(g.Size(), v requires 0 <= v < g.Size() => BlockEnd(g, dis, v));
    forall v | v in Dom(dis) ensures b[v] >= NextOther(g, dis, 0, s.curParity) {
      BlockEndFrom(g, dis, 0, s.curParity, v);
    }
    assert Labels(g, dis, s, b);
    forall w | ClosedWalk(g, Just(g, dis, s), Winners(g, s), s.strategy, w) ensures false {
      WalkInside(g, Just(g, dis, s), Winners(g, s), s.strategy, w);
    }
  }

  // ---------------------------------------------------------------------------------------------------------
  // Resetting
  // ---------------------------------------------------------------------------------------------------------

  /** `v` was justified `before` and is not `after`. */
  predicate Gone(before: seq<bool>, after: seq<bool>, v: nat) {
    v < |before| && v < |after| && before[v] && !after[v]
  }

  /** `t` is `s` after some justified vertices have been reset. */
  ghost predicate Retracted(g: Game, s: State, t: State)
    requires Sized(g, s) && Sized(g, t)
  {
    && SameBlock(s, t)
    && (forall v :: 0 <= v < g.Size() && t.justified[v] ==> s.justified[v])
    && (forall v :: 0 <= v < g.Size() ==> t.distraction[v] == (s.distraction[v] && !Gone(s.justified, t.justified, v)))
    && t.i <= s.i
    && (forall v :: Gone(s.justified, t.justified, v) ==> t.i <= v)
    && (t.i == s.i || Gone(s.justified, t.justified, t.i))
  }

  lemma RetractedTwice(g: Game, s: State, m: State, t: State)
    requires Sized(g, s) && Sized(g, m) && Sized(g, t)
    requires Retracted(g, s, m) && Retracted(g, m, t)
    ensures Retracted(g, s, t)
    ensures forall v :: Gone(s.justified, t.justified, v) <==> Gone(s.justified, m.justified, v) || Gone(m.justified, t.justified, v)
  {
    assert forall v :: Gone(s.justified, t.justified, v) <==> Gone(s.justified, m.justified, v) || Gone(m.justified, t.justified, v);
  }

  lemma ResetOne(g: Game, s: State, from: nat)
    requires Sized(g, s) && from < g.Size() && s.justified[from]
    ensures Sized(g, Reset(s, from)) && Retracted(g, s, Reset(s, from))
    ensures forall v :: Gone(s.justified, Reset(s, from).justified, v) <==> v == from
  {
  }

  lemma {:induction false} ResetInsMeaning(g: Game, s: State, v: nat, k: nat)
    requires Sized(g, s) && v < g.Size() && k <= |g.ins[v]|
    ensures var t := ResetIns(g, s, v, k);
      && Retracted(g, s, t)
      && (forall w :: w in t.q <==> w in s.q || Gone(s.justified, t.justified, w))
      && (forall j :: k <= j < |g.ins[v]| && t.justified[g.ins[v][j]] ==> !Supports(g, s.strategy, g.ins[v][j], v))
      && (forall w :: Gone(s.justified, t.justified, w) ==> Supports(g, s.strategy, w, v))
    decreases |g.ins[v]| - k
  {
    if k < |g.ins[v]| {
      var from := g.ins[v][k];
      InsOuts(g, from, v);
      if s.justified[from] && (s.strategy[from] == -1 || s.strategy[from] == v) {
        var m := Reset(s, from);
        ResetOne(g, s, from);
        ResetInsMeaning(g, m, v, k + 1);
        RetractedTwice(g, s, m, ResetIns(g, m, v, k + 1));
      } else {
        ResetInsMeaning(g, s, v, k + 1);
      }
    }
  }

  /** After the propagation nothing justified rests on a flipped or a reset vertex. */
  lemma {:induction false} PropagateMeaning(g: Game, s: State)
    requires Sized(g, s)
    ensures var t := Propagate(g, s);
      && Retracted(g, s, t)
      && forall v, w :: 0 <= v < g.Size() && t.justified[v] && (w in s.q || Gone(s.justified, t.justified, w)) ==> !Supports(g, s.strategy, v, w)
    decreases |s.q| + 2 * CountTrue(s.justified)
  {
    if s.q != [] {
      var v := s.q[|s.q| - 1];
      var r := s.(q := s.q[..|s.q| - 1]);
      var m := ResetIns(g, r, v, 0);
      ResetInsMeaning(g, r, v, 0);
      PropagateMeaning(g, m);
      var t := Propagate(g, m);
      RetractedTwice(g, r, m, t);
      assert Retracted(g, s, t);
      forall x, w | 0 <= x < g.Size() && t.justified[x] && (w in s.q || Gone(s.justified, t.justified, w))
        ensures !Supports(g, s.strategy, x, w)
      {
        if w != v && w in s.q { assert w in r.q; }
        if w == v && g.Edge(x, v) {
          InsOuts(g, x, v);
          var j :| 0 <= j < |g.ins[v]| && g.ins[v][j] == x;
          assert m.justified[x];
        }
      }
    }
  }

  /** Resets stay inside any set that contains whatever rests on the queue or on the set itself. */
  lemma {:induction false} PropagateWithin(g: Game, s: State, top: set<nat>, low: set<nat>)
    requires Sized(g, s) && low <= top
    requires forall v :: v in s.q ==> v in top
    requires forall v, w :: 0 <= v < g.Size() && s.justified[v] && w in top && Supports(g, s.strategy, v, w) ==> v in low
    ensures forall v :: Gone(s.justified, Propagate(g, s).justified, v) ==> v in low
    decreases |s.q| + 2 * CountTrue(s.justified)
  {
    hide Supports;
    if s.q != [] {
      var v := s.q[|s.q| - 1];
      var r := s.(q := s.q[..|s.q| - 1]);
      ResetInsMeaning(g, r, v, 0);
      var m := ResetIns(g, r, v, 0);
      PropagateMeaning(g, m);
      RetractedTwice(g, r, m, Propagate(g, m));
      PropagateWithin(g, m, top, low);
    }
  }

  // ---------------------------------------------------------------------------------------------------------
  // A block that ends with distractions
  // ---------------------------------------------------------------------------------------------------------

  /** `v` was justified or flipped, and has been reset. */
  ghost predicate Lost(s: State, t: State, v: nat) {
    v < |s.justified| && v < |t.justified| && (s.justified[v] || v in s.q) && !t.justified[v]
  }

  /** `t` is `s` at the end of a block with distractions, after marking and resetting. */
  ghost predicate Flipped(g: Game, s: State, t: State)
    requires Sized(g, s) && Sized(g, t)
  {
    && t.strategy == s.strategy && t.q == []
    && (forall v :: 0 <= v < g.Size() && t.justified[v] ==> s.justified[v] || v in s.q)
    && (forall v :: 0 <= v < g.Size() ==> t.distraction[v] == ((s.distraction[v] || v in s.q) && !Lost(s, t, v)))
    && t.i <= s.blockstart
    && (forall v :: Lost(s, t, v) ==> t.i <= v)
    && (t.i == s.blockstart || Lost(s, t, t.i))
    && (forall v, w :: 0 <= v < g.Size() && t.justified[v] && (w in s.q || Lost(s, t, w)) ==> !Supports(g, s.strategy, v, w))
  }

  lemma EndBlockFlips(g: Game, dis: seq<bool>, s: State)
    requires Sized(g, s) && |dis| == g.Size() && s.q != [] && s.blockstart <= s.i
    ensures Flipped(g, s, EndBlock(g, dis, s))
  {
    var m := Marked(g, s);
    PropagateMeaning(g, m);
    var t := EndBlock(g, dis, s);
    assert forall v :: Lost(s, t, v) <==> Gone(m.justified, t.justified, v);
  }

  /** A flipped vertex has the other value until the flip, and rests on vertices of that other value only. */
  lemma FlippedVertex(g: Game, dis: seq<bool>, s: State, v: nat)
    requires Core(g, dis, s) && v in s.q && v in Dom(dis)
    ensures Value(g, s.distraction, v) == s.curParity == g.Parity(v)
    ensures if s.strategy[v] == -1 then
        g.owner[v] == s.curParity
      else
        0 <= s.strategy[v] < g.Size() && g.Edge(v, s.strategy[v]) && !dis[s.strategy[v]] && g.owner[v] == 1 - s.curParity
    ensures forall w :: w in Dom(dis) && Supports(g, s.strategy, v, w) ==> Value(g, s.distraction, w) == 1 - s.curParity
    ensures s.blockstart <= v < NextOther(g, dis, s.blockstart, s.curParity)
    ensures !s.justified[v]
  {
    var k :| 0 <= k < |s.q| && s.q[k] == v;
    assert Evaluated(g, dis, s, v);
  }

  /** What survives a flip rests on vertices whose value did not change. */
  lemma FlipKeepsSupport(g: Game, dis: seq<bool>, s: State, t: State, v: nat, w: nat)
    requires Core(g, dis, s) && Sized(g, t) && Flipped(g, s, t)
    requires v in Just(g, dis, t) && w in Dom(dis) && Supports(g, s.strategy, v, w)
    ensures w !in s.q && t.justified[w] == s.justified[w] && t.distraction[w] == s.distraction[w]
  {
  }

  lemma FlipLocally(g: Game, dis: seq<bool>, s: State, t: State, v: nat)
    requires Core(g, dis, s) && Sized(g, t) && Flipped(g, s, t)
    requires v in Just(g, dis, t)
    ensures Locally(g, dis, t, v)
  {
    if v in s.q { FlippedVertex(g, dis, s, v); } else { assert v in Just(g, dis, s); }
    forall w | w in Dom(dis) && Supports(g, s.strategy, v, w)
      ensures Value(g, t.distraction, w) == Value(g, t.distraction, v)
    {
      FlipKeepsSupport(g, dis, s, t, v, w);
    }
  }

  /** A vertex that something justified rests on after the flip was justified before, with the same value. */
  lemma FlipTarget(g: Game, dis: seq<bool>, s: State, t: State, u: nat, v: nat)
    requires Core(g, dis, s) && Sized(g, t) && Flipped(g, s, t)
    requires Move(g, Just(g, dis, t), Winners(g, t), t.strategy, u, v)
    ensures v in Just(g, dis, s) && Value(g, t.distraction, v) == Value(g, s.distraction, v)
    ensures v in Just(g, dis, t)
  {
    FlipLocally(g, dis, s, t, u);
    assert Supports(g, s.strategy, u, v);
    FlipKeepsSupport(g, dis, s, t, u, v);
  }

  /** A cycle that survives a flip avoids the flipped vertices, so it was there before. */
  lemma FlipCycle(g: Game, dis: seq<bool>, s: State, t: State, w: seq<nat>)
    requires Core(g, dis, s) && Sized(g, t) && Flipped(g, s, t)
    requires ClosedWalk(g, Just(g, dis, t), Winners(g, t), t.strategy, w)
    ensures Won(g, Winners(g, t), w)
  {
    forall j | 0 <= j < |w|
      ensures w[j] in Just(g, dis, s) && Value(g, t.distraction, w[j]) == Value(g, s.distraction, w[j])
    {
      var k := if j == 0 then |w| - 2 else j - 1;
      assert w[k + 1] == w[j];
      FlipTarget(g, dis, s, t, w[k], w[k + 1]);
    }
    forall k | 0 <= k < |w| - 1 ensures Move(g, Just(g, dis, s), Winners(g, s), s.strategy, w[k], w[k + 1]) {
      assert Move(g, Just(g, dis, t), Winners(g, t), t.strategy, w[k], w[k + 1]);
    }
    assert ClosedWalk(g, Just(g, dis, s), Winners(g, s), s.strategy, w);
    assert Won(g, Winners(g, s), w);
  }

  lemma FlipLabels(g: Game, dis: seq<bool>, s: State, t: State, b: seq<int>) returns (c: seq<int>)
    requires Core(g, dis, s) && Sized(g, t) && Flipped(g, s, t) && Labels(g, dis, s, b)
    requires t.i == t.blockstart && t.curParity == g.Parity(t.i) && t.i < g.Size()
    ensures Labels(g, dis, t, c)
  {
    var e := NextOther(g, dis, s.blockstart, s.curParity);
    c := seq(g.Size(), v requires 0 <= v < g.Size() =>
      if !t.justified[v] then BlockEnd(g, dis, v) else if v in s.q then e else b[v]);
    var e' := NextOther(g, dis, t.i, t.curParity);
    assert e' <= e by {
      if s.blockstart in Dom(dis) { BlockEndFrom(g, dis, t.i, t.curParity, s.blockstart); BlockEndFrom(g, dis, s.blockstart, s.curParity, s.blockstart); }
    }
    forall v | v in Dom(dis)
      ensures c[v] >= e'
      ensures t.justified[v] ==> c[v] >= BlockEnd(g, dis, v)
    {
      FlipBound(g, dis, s, t, v);
    }
    forall v, w | v in Just(g, dis, t) && w in Dom(dis) && Supports(g, t.strategy, v, w)
      ensures c[v] <= c[w]
    {
      FlipKeepsSupport(g, dis, s, t, v, w);
      assert b[w] >= e;
      if v in s.q { assert c[v] == e; } else { assert v in Just(g, dis, s); }
    }
  }

  lemma FlipBound(g: Game, dis: seq<bool>, s: State, t: State, v: nat)
    requires Core(g, dis, s) && Sized(g, t) && Flipped(g, s, t)
    requires t.i < g.Size() && v in Dom(dis)
    ensures v in s.q ==> BlockEnd(g, dis, v) == NextOther(g, dis, s.blockstart, s.curParity)
    ensures !t.justified[v] ==> t.i <= v && BlockEnd(g, dis, v) >= NextOther(g, dis, t.i, g.Parity(t.i))
  {
    if v in s.q {
      FlippedVertex(g, dis, s, v);
      BlockEndFrom(g, dis, s.blockstart, s.curParity, v);
    }
    if !t.justified[v] {
      assert s.justified[v] || v in s.q ==> Lost(s, t, v);
      BlockEndFrom(g, dis, t.i, g.Parity(t.i), v);
    }
  }

  lemma FlipCore(g: Game, dis: seq<bool>, s: State, t: State)
    requires Core(g, dis, s) && Sized(g, t) && Flipped(g, s, t)
    requires t.i == t.blockstart && t.curParity == g.Parity(t.i)
    ensures Core(g, dis, t)
  {
    forall v | v in Just(g, dis, t) ensures Locally(g, dis, t, v) { FlipLocally(g, dis, s, t, v); }
    forall w | ClosedWalk(g, Just(g, dis, t), Winners(g, t), t.strategy, w) ensures Won(g, Winners(g, t), w) {
      FlipCycle(g, dis, s, t, w);
    }
    forall v | v in Dom(dis) && v < t.i ensures t.justified[v] { FlipBound(g, dis, s, t, v); }
  }

  lemma FlipInv(g: Game, dis: seq<bool>, s: State, t: State)
    requires Inv(g, dis, s) && Sized(g, t) && Flipped(g, s, t)
    requires t.i == t.blockstart && t.curParity == g.Parity(t.i)
    ensures Inv(g, dis, t)
  {
    FlipCore(g, dis, s, t);
    var b :| Labels(g, dis, s, b);
    var c := FlipLabels(g, dis, s, t, b);
  }

  // ---------------------------------------------------------------------------------------------------------
  // A block that ends without distractions
  // ---------------------------------------------------------------------------------------------------------

  ghost predicate AtBlockEnd(g: Game, dis: seq<bool>, s: State)
    requires Sized(g, s) && |dis| == g.Size()
  {
    BlockEnded(g, s) && (s.i < g.Size() ==> !dis[s.i])
  }

  /** An unjustified vertex of a finished block without distractions has the block's value. */
  lemma SettledVertex(g: Game, dis: seq<bool>, s: State, v: nat)
    requires Core(g, dis, s) && AtBlockEnd(g, dis, s) && s.q == []
    requires v in Dom(dis) && s.blockstart <= v < s.i && !s.justified[v]
    ensures s.i == NextOther(g, dis, s.blockstart, s.curParity) == BlockEnd(g, dis, v)
    ensures Value(g, s.distraction, v) == g.Parity(v) == s.curParity
    ensures Locally(g, dis, s, v)
  {
    BlockEndFrom(g, dis, s.blockstart, s.curParity, v);
    assert Evaluated(g, dis, s, v);
  }

  lemma SettleSupports(g: Game, dis: seq<bool>, s: State, b: seq<int>, u: nat, v: nat)
    requires Core(g, dis, s) && AtBlockEnd(g, dis, s) && s.q == [] && Labels(g, dis, s, b)
    requires var t := JustifyBlock(g, dis, s); Move(g, Just(g, dis, t), Winners(g, t), t.strategy, u, v)
    requires b[v] <= s.i && Value(g, s.distraction, v) == s.curParity
    ensures u in Dom(dis) && b[u] <= s.i && Value(g, s.distraction, u) == s.curParity
  {
    if s.justified[u] {
      assert u in Just(g, dis, s) && Locally(g, dis, s, u);
      assert Supports(g, s.strategy, u, v);
    } else {
      SettledVertex(g, dis, s, u);
    }
  }

  lemma {:induction false} SettleBackward(g: Game, dis: seq<bool>, s: State, b: seq<int>, w: seq<nat>, m: nat)
    requires Core(g, dis, s) && AtBlockEnd(g, dis, s) && s.q == [] && Labels(g, dis, s, b)
    requires var t := JustifyBlock(g, dis, s); ClosedWalk(g, Just(g, dis, t), Winners(g, t), t.strategy, w)
    requires m < |w| && w[m] in Dom(dis) && b[w[m]] <= s.i && Value(g, s.distraction, w[m]) == s.curParity
    ensures forall k :: 0 <= k <= m ==> w[k] in Dom(dis) && b[w[k]] <= s.i && Value(g, s.distraction, w[k]) == s.curParity
  {
    if m > 0 {
      var t := JustifyBlock(g, dis, s);
      assert Move(g, Just(g, dis, t), Winners(g, t), t.strategy, w[m - 1], w[m - 1 + 1]);
      SettleSupports(g, dis, s, b, w[m - 1], w[m]);
      SettleBackward(g, dis, s, b, w, m - 1);
    }
  }

  /** A cycle closed by the newly justified block lies below the end of the block and meets the block. */
  lemma SettleNewCycle(g: Game, dis: seq<bool>, s: State, b: seq<int>, w: seq<nat>, m: nat)
    requires Core(g, dis, s) && AtBlockEnd(g, dis, s) && s.q == [] && Labels(g, dis, s, b)
    requires var t := JustifyBlock(g, dis, s); ClosedWalk(g, Just(g, dis, t), Winners(g, t), t.strategy, w)
    requires m < |w| && w[m] in Dom(dis) && s.blockstart <= w[m] < s.i && !s.justified[w[m]]
    ensures Won(g, Winners(g, JustifyBlock(g, dis, s)), w)
  {
    hide Winning, Scanning, NextOther, Locally, Won;
    SettledVertex(g, dis, s, w[m]);
    assert b[w[m]] == s.i;
    hide Labels;
    SettleBackward(g, dis, s, b, w, m);
    SettleBackward(g, dis, s, b, w, |w| - 1);
    var k := HighestPosition(w);
    assert w[m] <= w[k];
    SettledHighest(g, dis, s, b, w[m], w[k]);
    WonAtTop(g, Winners(g, JustifyBlock(g, dis, s)), w, k);
  }

  lemma SettledHighest(g: Game, dis: seq<bool>, s: State, b: seq<int>, u: nat, v: nat)
    requires Core(g, dis, s) && AtBlockEnd(g, dis, s) && s.q == [] && Labels(g, dis, s, b)
    requires u in Dom(dis) && v in Dom(dis) && u <= v && b[v] <= s.i
    requires s.blockstart <= u < s.i && !s.justified[u]
    ensures g.Parity(v) == s.curParity
  {
    SettledVertex(g, dis, s, u);
    BlockEndFrom(g, dis, s.blockstart, s.curParity, v);
  }

  lemma SettleCycle(g: Game, dis: seq<bool>, s: State, b: seq<int>, w: seq<nat>)
    requires Core(g, dis, s) && AtBlockEnd(g, dis, s) && s.q == [] && Labels(g, dis, s, b)
    requires var t := JustifyBlock(g, dis, s); ClosedWalk(g, Just(g, dis, t), Winners(g, t), t.strategy, w)
    ensures Won(g, Winners(g, JustifyBlock(g, dis, s)), w)
  {
    var t := JustifyBlock(g, dis, s);
    WalkInside(g, Just(g, dis, t), Winners(g, t), t.strategy, w);
    if m :| 0 <= m < |w| && !s.justified[w[m]] {
      SettleNewCycle(g, dis, s, b, w, m);
    } else {
      forall k | 0 <= k < |w| - 1 ensures Move(g, Just(g, dis, s), Winners(g, s), s.strategy, w[k], w[k + 1]) {
        assert Move(g, Just(g, dis, t), Winners(g, t), t.strategy, w[k], w[k + 1]);
      }
      assert ClosedWalk(g, Just(g, dis, s), Winners(g, s), s.strategy, w);
      assert Winners(g, t) == Winners(g, s);
    }
  }

  lemma SettleWinning(g: Game, dis: seq<bool>, s: State, b: seq<int>)
    requires Core(g, dis, s) && AtBlockEnd(g, dis, s) && s.q == [] && Labels(g, dis, s, b)
    ensures Winning(g, dis, JustifyBlock(g, dis, s))
    ensures forall v :: v in Dom(dis) && v < s.i ==> JustifyBlock(g, dis, s).justified[v]
  {
    var t := JustifyBlock(g, dis, s);
    forall v | v in Just(g, dis, t) ensures Locally(g, dis, t, v) {
      if s.justified[v] { assert v in Just(g, dis, s); } else { SettledVertex(g, dis, s, v); }
      assert Locally(g, dis, s, v);
    }
    forall w | ClosedWalk(g, Just(g, dis, t), Winners(g, t), t.strategy, w) ensures Won(g, Winners(g, t), w) {
      SettleCycle(g, dis, s, b, w);
    }
  }

  lemma SettleLabels(g: Game, dis: seq<bool>, s: State, b: seq<int>) returns (c: seq<int>)
    requires Core(g, dis, s) && AtBlockEnd(g, dis, s) && s.q == [] && Labels(g, dis, s, b) && s.i < g.Size()
    ensures Labels(g, dis, NextBlock(g, JustifyBlock(g, dis, s)), c)
  {
    var t := NextBlock(g, JustifyBlock(g, dis, s));
    var e := NextOther(g, dis, t.i, t.curParity);
    c := seq(g.Size(), v requires 0 <= v < g.Size() => if b[v] < e then e else b[v]);
    forall v | v in Dom(dis)
      ensures c[v] >= BlockEnd(g, dis, v)
      ensures !t.justified[v] ==> c[v] == BlockEnd(g, dis, v)
    {
      if v >= t.i { BlockEndFrom(g, dis, t.i, t.curParity, v); }
      if !s.justified[v] && t.justified[v] { SettledVertex(g, dis, s, v); }
    }
    forall v, w | v in Dom(dis) && t.justified[v] && w in Dom(dis) && Supports(g, t.strategy, v, w)
      ensures c[v] <= c[w]
    {
      SettledOrder(g, dis, s, b, v, w, e);
    }
  }

  lemma SettledOrder(g: Game, dis: seq<bool>, s: State, b: seq<int>, v: nat, w: nat, e: nat)
    requires Core(g, dis, s) && AtBlockEnd(g, dis, s) && s.q == [] && Labels(g, dis, s, b) && s.i < g.Size()
    requires v in Dom(dis) && JustifyBlock(g, dis, s).justified[v] && w in Dom(dis) && Supports(g, s.strategy, v, w)
    requires e == NextOther(g, dis, s.i, g.Parity(s.i))
    ensures (if b[v] < e then e else b[v]) <= (if b[w] < e then e else b[w])
  {
    if !s.justified[v] { SettledVertex(g, dis, s, v); }
  }

  lemma SettleInv(g: Game, dis: seq<bool>, s: State)
    requires Inv(g, dis, s) && AtBlockEnd(g, dis, s) && s.q == [] && s.i < g.Size()
    ensures Inv(g, dis, NextBlock(g, JustifyBlock(g, dis, s)))
  {
    var b :| Labels(g, dis, s, b);
    SettleWinning(g, dis, s, b);
    var c := SettleLabels(g, dis, s, b);
  }

  // ---------------------------------------------------------------------------------------------------------
  // Every turn of the loop
  // ---------------------------------------------------------------------------------------------------------

  lemma EvaluateWinning(g: Game, dis: seq<bool>, s: State)
    requires Core(g, dis, s) && s.i < g.Size()
    ensures Winning(g, dis, Evaluate(g, dis, s))
  {
    hide Scanning;
    var t := Evaluate(g, dis, s);
    assert Just(g, dis, t) == Just(g, dis, s) && Winners(g, t) == Winners(g, s);
    forall v | v in Just(g, dis, t) ensures Locally(g, dis, t, v) {
      assert Locally(g, dis, s, v);
    }
    forall w | ClosedWalk(g, Just(g, dis, t), Winners(g, t), t.strategy, w) ensures Won(g, Winners(g, t), w) {
      forall k | 0 <= k < |w| - 1 ensures Move(g, Just(g, dis, s), Winners(g, s), s.strategy, w[k], w[k + 1]) {
        assert Move(g, Just(g, dis, t), Winners(g, t), t.strategy, w[k], w[k + 1]);
      }
      assert ClosedWalk(g, Just(g, dis, s), Winners(g, s), s.strategy, w);
    }
  }

  lemma EvaluateInv(g: Game, dis: seq<bool>, s: State)
    requires Inv(g, dis, s) && s.i < NextOther(g, dis, s.blockstart, s.curParity)
    requires s.i == 0 || !dis[s.i]
    ensures Inv(g, dis, Evaluate(g, dis, s))
  {
    EvaluateWinning(g, dis, s);
    EvaluateScans(g, dis, s);
    hide Winning, Scanning, Labels, Evaluate;
    var b :| Labels(g, dis, s, b);
    EvaluateLabels(g, dis, s, b);
  }

  lemma EvaluateLabels(g: Game, dis: seq<bool>, s: State, b: seq<int>)
    requires Sized(g, s) && |dis| == g.Size() && s.i < g.Size() && Labels(g, dis, s, b)
    ensures Labels(g, dis, Evaluate(g, dis, s), b)
  {
    hide FirstGood, OneStep, BlockEnd, NextOther;
  }

  lemma EvaluateScans(g: Game, dis: seq<bool>, s: State)
    requires Core(g, dis, s) && s.i < NextOther(g, dis, s.blockstart, s.curParity)
    requires s.i == 0 || !dis[s.i]
    ensures Scanning(g, dis, Evaluate(g, dis, s))
  {
    hide Winning, FirstGood, NextOther;
    var t := Evaluate(g, dis, s);
    FirstGoodMeaning(g, dis, s.distraction, s.i, 0);
    forall v | v in Dom(dis) && t.blockstart <= v < t.i && !t.justified[v] ensures Evaluated(g, dis, t, v) {
      if v < s.i {
        assert Evaluated(g, dis, s, v);
      } else {
        assert forall w :: g.Edge(v, w) ==> exists j :: 0 <= j < |g.outs[v]| && g.outs[v][j] == w;
      }
    }
  }

  lemma SkipInv(g: Game, dis: seq<bool>, s: State)
    requires Inv(g, dis, s) && s.i < g.Size() && dis[s.i]
    ensures Inv(g, dis, s.(i := s.i + 1))
  {
    hide CyclesWon, BlockEnd;
    var b :| Labels(g, dis, s, b);
    assert Labels(g, dis, s.(i := s.i + 1), b);
    assert Winners(g, s.(i := s.i + 1)) == Winners(g, s);
  }

  /** Unless the block has ended, the vertex to be evaluated lies in it and is enabled, except perhaps vertex 0. */
  lemma InsideBlock(g: Game, dis: seq<bool>, s: State)
    requires Core(g, dis, s) && s.i < g.Size()
    requires s.i == s.blockstart || (!dis[s.i] && g.Parity(s.i) == s.curParity)
    ensures s.i < NextOther(g, dis, s.blockstart, s.curParity) && (s.i == 0 || !dis[s.i])
  {
  }

  lemma EndBlockInv(g: Game, dis: seq<bool>, s: State)
    requires Inv(g, dis, s) && AtBlockEnd(g, dis, s)
    ensures var t := EndBlock(g, dis, s);
      if t.i < g.Size() then Inv(g, dis, NextBlock(g, t)) else s.q == [] && s.i == g.Size()
  {
    hide Winning, Labels, Propagate, Marked, NextOther, Supports;
    if s.q != [] {
      assert s.blockstart <= s.i by { assert Scanning(g, dis, s); }
      EndBlockFlips(g, dis, s);
      var t := EndBlock(g, dis, s);
      assert forall v :: Lost(s, NextBlock(g, t), v) <==> Lost(s, t, v);
      FlipInv(g, dis, s, NextBlock(g, t));
    } else if s.i < g.Size() {
      SettleInv(g, dis, s);
    }
  }

  /** Every turn keeps the invariant, and the loop is left only from a finished last block without distractions. */
  lemma StepInv(g: Game, dis: seq<bool>, s: State)
    requires Sized(g, s) && |dis| == g.Size() && Inv(g, dis, s)
    ensures Step(g, dis, s).Running? ==> Inv(g, dis, Step(g, dis, s).s)
    ensures Step(g, dis, s).Finished? ==> s.q == [] && AtBlockEnd(g, dis, s) && s.i == g.Size()
  {
    hide Core, Labels, EndBlock, Evaluate;
    if s.i < g.Size() && dis[s.i] {
      SkipInv(g, dis, s);
    } else if BlockEnded(g, s) {
      EndBlockInv(g, dis, s);
      var t := EndBlock(g, dis, s);
      if t.i < g.Size() {
        InsideBlock(g, dis, NextBlock(g, t));
        EvaluateInv(g, dis, NextBlock(g, t));
      }
    } else {
      InsideBlock(g, dis, s);
      EvaluateInv(g, dis, s);
    }
  }

  /** What is handed to Oink::solve after the loop solves the enabled subgame. */
  ghost predicate Solves(g: Game, dis: seq<bool>, t: State)
    requires Sized(g, t) && |dis| == g.Size()
  {
    CorrectSolution(g, Dom(dis), Winners(g, t), Strategies(g, t))
  }

  lemma ReportedClosed(g: Game, dis: seq<bool>, t: State, u: nat)
    requires Sized(g, t) && |dis| == g.Size() && u in Dom(dis) && Locally(g, dis, t, u)
    ensures if Winners(g, t)[u] == g.owner[u] then
        Strategies(g, t)[u] >= 0 && Strategies(g, t)[u] in Dom(dis) && g.Edge(u, Strategies(g, t)[u])
          && Winners(g, t)[Strategies(g, t)[u]] == Winners(g, t)[u]
      else forall v :: v in Dom(dis) && g.Edge(u, v) ==> Winners(g, t)[v] == Winners(g, t)[u]
  {
    if t.strategy[u] != -1 {
      assert Supports(g, t.strategy, u, t.strategy[u]);
    } else {
      forall v | v in Dom(dis) && g.Edge(u, v) ensures Winners(g, t)[v] == Winners(g, t)[u] { assert Supports(g, t.strategy, u, v); }
    }
  }

  lemma ReportedWon(g: Game, dis: seq<bool>, t: State, w: seq<nat>)
    requires Sized(g, t) && |dis| == g.Size() && Winning(g, dis, t) && Just(g, dis, t) == Dom(dis)
    requires ClosedWalk(g, Dom(dis), Winners(g, t), Strategies(g, t), w)
    ensures Won(g, Winners(g, t), w)
  {
    forall k | 0 <= k < |w| - 1 ensures Move(g, Just(g, dis, t), Winners(g, t), t.strategy, w[k], w[k + 1]) {
      assert Move(g, Dom(dis), Winners(g, t), Strategies(g, t), w[k], w[k + 1]);
    }
    assert ClosedWalk(g, Just(g, dis, t), Winners(g, t), t.strategy, w);
  }

  /** When every enabled vertex is justified, the justifications are a solution. */
  lemma WinningSolves(g: Game, dis: seq<bool>, t: State)
    requires Sized(g, t) && |dis| == g.Size() && Winning(g, dis, t) && Just(g, dis, t) == Dom(dis)
    ensures Solves(g, dis, t)
  {
    forall u | u in Dom(dis) ensures Locally(g, dis, t, u) {
      assert u in Just(g, dis, t);
    }
    hide Locally, Winning;
    forall u | u in Dom(dis)
      ensures if Winners(g, t)[u] == g.owner[u] then
        Strategies(g, t)[u] >= 0 && Strategies(g, t)[u] in Dom(dis) && g.Edge(u, Strategies(g, t)[u])
          && Winners(g, t)[Strategies(g, t)[u]] == Winners(g, t)[u]
      else forall v :: v in Dom(dis) && g.Edge(u, v) ==> Winners(g, t)[v] == Winners(g, t)[u]
    {
      ReportedClosed(g, dis, t, u);
    }
    forall w | ClosedWalk(g, Dom(dis), Winners(g, t), Strategies(g, t), w) ensures Won(g, Winners(g, t), w) {
      ReportedWon(g, dis, t, w);
    }
  }

  /** When the loop is left, the reported winners and strategies solve the enabled subgame. */
  lemma FinishedCorrect(g: Game, dis: seq<bool>, s: State)
    requires Inv(g, dis, s) && Step(g, dis, s).Finished?
    ensures Solves(g, dis, Step(g, dis, s).s)
  {
    StepInv(g, dis, s);
    var b :| Labels(g, dis, s, b);
    SettleWinning(g, dis, s, b);
    WinningSolves(g, dis, JustifyBlock(g, dis, s));
  }

  /** Partial correctness on every input: whenever the loop is left, from any number of turns, the report is correct. */
  lemma {:induction false} RunCorrect(g: Game, dis: seq<bool>, s: State, budget: nat)
    requires Sized(g, s) && |dis| == g.Size() && Inv(g, dis, s)
    ensures var o := Run(g, dis, s, budget);
      o.Finished? ==> Solves(g, dis, o.s)
    decreases budget
  {
    hide Inv, Step, Solves, Sized;
    if budget > 0 {
      StepInv(g, dis, s);
      if Step(g, dis, s).Finished? {
        FinishedCorrect(g, dis, s);
      } else {
        RunCorrect(g, dis, Step(g, dis, s).s, budget - 1);
      }
    }
  }
}
