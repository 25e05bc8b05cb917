/** What the evaluation of the disabled vertex 0 does to fixpoint iteration with justifications: for which inputs the loop
    is left all the same, and for which it is never left.

    Vertex 0 is evaluated at a restart of the first block. It becomes a distraction when the distractions of that block
    drive it to, and it then resets vertices that the one-step rule never lets depend on it. */
module FPJRestarts {
  import opened ParityGames
  import opened FixpointJustification
  import opened FPJInvariant
  import opened FPJTermination
  import opened Solutions

  // ---------------------------------------------------------------------------------------------------------
  // The fixpoint of the first block
  // ---------------------------------------------------------------------------------------------------------

  ghost predicate InFirstBlock(g: Game, dis: seq<bool>, v: nat)
    requires Instance(g, dis)
  {
    v in Dom(dis) && v < NextOther(g, dis, 0, g.Parity(0))
  }

  /** Marks within the first block. */
  ghost predicate Marks(g: Game, dis: seq<bool>, d: seq<bool>)
    requires Instance(g, dis)
  {
    |d| == g.Size() && forall v: nat :: v < g.Size() && d[v] ==> InFirstBlock(g, dis, v)
  }

  /** No further vertex of the first block becomes a distraction. */
  ghost predicate Saturated(g: Game, dis: seq<bool>, d: seq<bool>)
    requires Instance(g, dis) && |d| == g.Size()
  {
    forall v: nat :: InFirstBlock(g, dis, v) && OneStep(g, dis, d, v) != g.Parity(0) ==> d[v]
  }

  ghost predicate Fewer(d: seq<bool>, d': seq<bool>) {
    |d| == |d'| && forall v :: 0 <= v < |d| && d[v] ==> d'[v]
  }

  /** More distractions in the first block drive no vertex back to the parity of the block. */
  lemma OneStepMonotone(g: Game, dis: seq<bool>, d: seq<bool>, d': seq<bool>, v: nat)
    requires Instance(g, dis) && Marks(g, dis, d) && Marks(g, dis, d') && Fewer(d, d') && v < g.Size()
    requires OneStep(g, dis, d, v) != g.Parity(0)
    ensures OneStep(g, dis, d', v) != g.Parity(0)
  {
    FirstGoodMeaning(g, dis, d, v, 0);
    FirstGoodMeaning(g, dis, d', v, 0);
    hide FirstGood;
  }

  /** One more round over the first block. */
  function Round(g: Game, dis: seq<bool>, d: seq<bool>): (d': seq<bool>)
    requires Instance(g, dis) && |d| == g.Size()
    ensures Fewer(d, d')
  {
    seq(g.Size(), v requires 0 <= v < g.Size() =>
      d[v] || (!dis[v] && v < FirstEnd(g, dis, 0) && OneStep(g, dis, d, v) != g.Parity(0)))
  }

  /** The end of the first block, computed. */
  function FirstEnd(g: Game, dis: seq<bool>, k: nat): (e: nat)
    requires Instance(g, dis) && k <= g.Size()
    ensures e == NextOther(g, dis, k, g.Parity(0))
    decreases g.Size() - k
  {
    if k == g.Size() then k else if !dis[k] && g.Parity(k) != g.Parity(0) then k else FirstEnd(g, dis, k + 1)
  }

  lemma {:induction false} CountFewer(d: seq<bool>, d': seq<bool>)
    requires Fewer(d, d')
    ensures CountTrue(d) <= CountTrue(d') <= |d'|
    ensures d != d' ==> CountTrue(d) < CountTrue(d')
    decreases |d|
  {
    if d != [] {
      var n := |d| - 1;
      CountFewer(d[..n], d'[..n]);
      assert d == d[..n] + [d[n]] && d' == d'[..n] + [d'[n]];
    }
  }

  /** Rounds until nothing changes. */
  function Saturation(g: Game, dis: seq<bool>, d: seq<bool>): (r: seq<bool>)
    requires Instance(g, dis) && |d| == g.Size()
    ensures |r| == g.Size()
    decreases g.Size() - CountTrue(d)
  {
    var d' := Round(g, dis, d);
    if d' == d then d
    else
      CountFewer(d, d');
      Saturation(g, dis, d')
  }

  lemma {:induction false} SaturationCloses(g: Game, dis: seq<bool>, d: seq<bool>)
    requires Instance(g, dis) && Marks(g, dis, d)
    ensures var r := Saturation(g, dis, d); Marks(g, dis, r) && Saturated(g, dis, r)
    decreases g.Size() - CountTrue(d)
  {
    var d' := Round(g, dis, d);
    if d' == d {
      forall v: nat | InFirstBlock(g, dis, v) && OneStep(g, dis, d, v) != g.Parity(0) ensures d[v] { assert d'[v]; }
    } else {
      CountFewer(d, d');
      SaturationCloses(g, dis, d');
    }
  }

  lemma {:induction false} SaturationLeast(g: Game, dis: seq<bool>, d: seq<bool>, c: seq<bool>)
    requires Instance(g, dis) && Marks(g, dis, d) && Marks(g, dis, c) && Saturated(g, dis, c) && Fewer(d, c)
    ensures Fewer(Saturation(g, dis, d), c)
    decreases g.Size() - CountTrue(d)
  {
    var d' := Round(g, dis, d);
    if d' != d {
      CountFewer(d, d');
      forall v | 0 <= v < g.Size() && d'[v] ensures c[v] {
        if !d[v] { OneStepMonotone(g, dis, d, c, v); }
      }
      SaturationLeast(g, dis, d', c);
    }
  }

  /** The distractions that the first block settles on by itself. */
  function FirstFixpoint(g: Game, dis: seq<bool>): (d: seq<bool>)
    requires Instance(g, dis)
    ensures |d| == g.Size()
  {
    Saturation(g, dis, AllFalse(g.Size()))
  }

  /** They drive vertex 0 to the other value. */
  predicate Drawn(g: Game, dis: seq<bool>)
    requires Instance(g, dis)
  {
    OneStep(g, dis, FirstFixpoint(g, dis), 0) != g.Parity(0)
  }

  /** The same with vertex 0 enabled: it is drawn by vertices that take their moves to it into account. */
  predicate DrawnEnabled(g: Game, dis: seq<bool>)
    requires Instance(g, dis)
  {
    assert Instance(g, dis[0 := false]);
    FirstFixpoint(g, dis[0 := false])[0]
  }

  // ---------------------------------------------------------------------------------------------------------
  // Every turn of a harmless run decreases the measure
  // ---------------------------------------------------------------------------------------------------------

  lemma InitialKept(g: Game, dis: seq<bool>, strategy: seq<int>)
    requires Instance(g, dis) && |strategy| == g.Size()
    ensures Sized(g, Initial(g, strategy)) && Kept(g, dis, Initial(g, strategy))
    ensures Measure(g, Initial(g, strategy)) < Bound(g)
  {
    InitialClean(g, dis, strategy);
  }

  lemma EvaluateKept(g: Game, dis: seq<bool>, s: State)
    requires Instance(g, dis) && Sized(g, s) && Kept(g, dis, s) && s.i < g.Size()
    requires s.i == 0 ==> 0 !in s.q && s.curParity == g.Parity(0)
    ensures Kept(g, dis, Evaluate(g, dis, s)) && Measure(g, Evaluate(g, dis, s)) == Measure(g, s) - 1
  {
    FirstGoodMeaning(g, dis, s.distraction, s.i, 0);
    hide FirstGood;
  }

  lemma EndBlockKept(g: Game, dis: seq<bool>, s: State)
    requires Inv(g, dis, s) && Kept(g, dis, s) && AtBlockEnd(g, dis, s) && EndBlock(g, dis, s).i < g.Size()
    ensures Kept(g, dis, NextBlock(g, EndBlock(g, dis, s)))
    ensures s.q != [] ==> NextBlock(g, EndBlock(g, dis, s)).q == []
  {
    hide Winning, Labels;
    if s.q != [] {
      assert s.blockstart <= s.i by { assert Scanning(g, dis, s); }
      EndBlockFlips(g, dis, s);
      hide EndBlock;
    }
  }

  /** Where a turn evaluates a vertex, that is in order. */
  lemma TurnInOrder(g: Game, dis: seq<bool>, s: State)
    requires Inv(g, dis, s) && s.i < g.Size() && !dis[s.i] && !BlockEnded(g, s)
    ensures s.i == 0 ==> 0 !in s.q && s.curParity == g.Parity(0)
  {
  }

  lemma StepKept(g: Game, dis: seq<bool>, s: State)
    requires Sized(g, s) && |dis| == g.Size() && Inv(g, dis, s) && Kept(g, dis, s)
    ensures Step(g, dis, s).Running? ==> Kept(g, dis, Step(g, dis, s).s)
  {
    hide Kept, EndBlock, Evaluate, Winning, Labels, Scanning;
    if s.i < g.Size() && dis[s.i] {
      SkipKept(g, dis, s);
    } else if BlockEnded(g, s) {
      var t := EndBlock(g, dis, s);
      if t.i < g.Size() {
        EndBlockKept(g, dis, s);
        QueueEmptied(g, dis, s);
        EvaluateKept(g, dis, NextBlock(g, t));
      }
    } else {
      TurnInOrder(g, dis, s);
      EvaluateKept(g, dis, s);
    }
  }

  lemma QueueEmptied(g: Game, dis: seq<bool>, s: State)
    requires Sized(g, s) && |dis| == g.Size()
    ensures EndBlock(g, dis, s).q == []
  {
    hide Propagate;
  }

  lemma SkipKept(g: Game, dis: seq<bool>, s: State)
    requires Instance(g, dis) && Sized(g, s) && Kept(g, dis, s) && s.i < g.Size()
    ensures var t := s.(i := s.i + 1); Kept(g, dis, t) && Measure(g, t) == Measure(g, s) - 1
  {
  }

  lemma EndBlockDecreases(g: Game, dis: seq<bool>, s: State)
    requires Sized(g, s) && |dis| == g.Size() && Inv(g, dis, s) && Kept(g, dis, s) && Harmless(g, dis, s) && AtBlockEnd(g, dis, s) && EndBlock(g, dis, s).i < g.Size()
    ensures Measure(g, NextBlock(g, EndBlock(g, dis, s))) <= Measure(g, s)
  {
    hide Inv, Kept, Harmless, Propagate, Marked;
    var t := NextBlock(g, EndBlock(g, dis, s));
    if s.q != [] {
      hide EndBlock;
      FlipWeight(g, dis, s);
      WeightStep(Weight(t.distraction), Weight(s.distraction), g.Size() + 2);
    }
  }

  lemma StepDecreases(g: Game, dis: seq<bool>, s: State)
    requires Sized(g, s) && |dis| == g.Size() && Inv(g, dis, s) && Kept(g, dis, s)
    requires Harmless(g, dis, s) || !AtBlockEnd(g, dis, s)
    ensures Step(g, dis, s).Running? ==> Measure(g, Step(g, dis, s).s) < Measure(g, s)
  {
    hide Kept, Measure, EndBlock, Evaluate, Winning, Labels, Scanning, Harmless;
    if s.i < g.Size() && dis[s.i] {
      SkipKept(g, dis, s);
    } else if BlockEnded(g, s) {
      var t := EndBlock(g, dis, s);
      if t.i < g.Size() {
        EndBlockKept(g, dis, s);
        QueueEmptied(g, dis, s);
        EndBlockDecreases(g, dis, s);
        EvaluateKept(g, dis, NextBlock(g, t));
      }
    } else {
      TurnInOrder(g, dis, s);
      EvaluateKept(g, dis, s);
    }
  }

  // ---------------------------------------------------------------------------------------------------------
  // No vertex depends on vertex 0 before it is settled
  // ---------------------------------------------------------------------------------------------------------

  /** No enabled vertex has a move to vertex 0. */
  ghost predicate Aloof(g: Game, dis: seq<bool>)
    requires Instance(g, dis)
  {
    forall v: nat :: v in Dom(dis) ==> !g.Edge(v, 0)
  }

  /** The enabled vertices with a move to vertex 0 lie beyond the first block, and that move is bad for their owners as
      soon as vertex 0 counts as a distraction. */
  ghost predicate Deferring(g: Game, dis: seq<bool>)
    requires Instance(g, dis)
  {
    forall v: nat :: v in Dom(dis) && g.Edge(v, 0) ==> !InFirstBlock(g, dis, v) && g.owner[v] == g.Parity(0)
  }

  /** The game with vertex 0 enabled. */
  function Enabled(dis: seq<bool>): (e: seq<bool>)
    requires |dis| > 0
  {
    dis[0 := false]
  }

  /** Vertex 0 will never be evaluated again. */
  ghost predicate Abandoned(g: Game, dis: seq<bool>, s: State)
    requires Instance(g, dis) && Sized(g, s)
  {
    dis[0] && !s.justified[0] && 0 !in s.q && s.blockstart > 0
  }

  /** The run is one of the game with vertex 0 enabled. */
  ghost predicate Coinciding(g: Game, dis: seq<bool>, s: State)
    requires Instance(g, dis) && Sized(g, s)
  {
    && dis[0] && Inv(g, Enabled(dis), s) && s.i > 0
    && s.justified[0] == s.distraction[0] && (s.blockstart == 0 || s.justified[0])
  }

  /** If `v` has no good move to vertex 0, it makes no difference to its choice that vertex 0 is disabled. */
  lemma {:induction false} SameChoice(g: Game, dis: seq<bool>, d: seq<bool>, v: nat, k: nat)
    requires Instance(g, dis) && |d| == g.Size() && v < g.Size() && k <= |g.outs[v]| && dis[0]
    requires g.Edge(v, 0) ==> Value(g, d, 0) != g.owner[v]
    ensures Instance(g, Enabled(dis)) && FirstGood(g, Enabled(dis), d, v, k) == FirstGood(g, dis, d, v, k)
    decreases |g.outs[v]| - k
  {
    if k < |g.outs[v]| {
      assert g.outs[v][k] == 0 ==> g.Edge(v, 0);
      SameChoice(g, dis, d, v, k + 1);
    }
  }

  lemma SameEvaluation(g: Game, dis: seq<bool>, s: State)
    requires Instance(g, dis) && Sized(g, s) && s.i < g.Size() && dis[0] && Deferring(g, dis) && !SelfResetting(g)
    requires s.i == 0 || s.i in Dom(dis)
    requires s.justified[0] == s.distraction[0] && (s.blockstart == 0 || s.justified[0])
    requires s.blockstart == 0 ==> s.i < NextOther(g, dis, 0, g.Parity(0))
    ensures Instance(g, Enabled(dis)) && Evaluate(g, Enabled(dis), s) == Evaluate(g, dis, s)
  {
    hide FirstGood, NextOther;
    if !s.justified[s.i] { SameChoice(g, dis, s.distraction, s.i, 0); }
  }

  lemma AbandonedStep(g: Game, dis: seq<bool>, s: State)
    requires Sized(g, s) && |dis| == g.Size() && Inv(g, dis, s) && Abandoned(g, dis, s)
    ensures Harmless(g, dis, s)
    ensures Step(g, dis, s).Running? ==> Abandoned(g, dis, Step(g, dis, s).s)
  {
    hide Winning, Labels, FirstGood, OneStep, Propagate;
    if AtBlockEnd(g, dis, s) && s.q != [] {
      EndBlockFlips(g, dis, s);
      hide EndBlock;
    }
  }

  lemma {:induction false} AbandonedFinishes(g: Game, dis: seq<bool>, s: State, budget: nat)
    requires Instance(g, dis) && Sized(g, s) && Inv(g, dis, s) && Kept(g, dis, s) && Abandoned(g, dis, s)
    requires Measure(g, s) < budget
    ensures Run(g, dis, s, budget).Finished?
    decreases budget
  {
    hide Inv, Kept, Step, Abandoned, Measure, Harmless;
    AbandonedStep(g, dis, s);
    StepDecreases(g, dis, s);
    StepKept(g, dis, s);
    StepInv(g, dis, s);
    if Step(g, dis, s).Running? { AbandonedFinishes(g, dis, Step(g, dis, s).s, budget - 1); }
  }

  lemma {:induction false} RunKept(g: Game, dis: seq<bool>, s: State, k: nat)
    requires Instance(g, dis) && Sized(g, s) && Inv(g, dis, s) && Kept(g, dis, s)
    ensures var o := Run(g, dis, s, k); o.Running? ==> Inv(g, dis, o.s) && Kept(g, dis, o.s)
    decreases k
  {
    hide Inv, Kept, Step;
    if k > 0 {
      StepKept(g, dis, s);
      StepInv(g, dis, s);
      if Step(g, dis, s).Running? { RunKept(g, dis, Step(g, dis, s).s, k - 1); }
    }
  }

  /** A quiet end of the first block passes vertex 0 by. */
  lemma QuietAbandons(g: Game, dis: seq<bool>, s: State)
    requires Sized(g, s) && |dis| == g.Size() && Inv(g, dis, s) && AtBlockEnd(g, dis, s)
    requires dis[0] && s.i > 0 && s.q == [] && !s.justified[0]
    ensures Harmless(g, dis, s)
    ensures Step(g, dis, s).Running? ==> Abandoned(g, dis, Step(g, dis, s).s)
  {
    hide Winning, Labels, FirstGood, OneStep;
  }

  lemma CoincidingScan(g: Game, dis: seq<bool>, s: State)
    requires Sized(g, s) && |dis| == g.Size() && Inv(g, dis, s) && Coinciding(g, dis, s) && Deferring(g, dis) && !SelfResetting(g)
    requires s.i < g.Size() && (dis[s.i] || !BlockEnded(g, s))
    ensures Instance(g, Enabled(dis)) && Step(g, Enabled(dis), s) == Step(g, dis, s)
  {
    hide Winning, Labels, FirstGood, OneStep, Deferring;
    if !dis[s.i] {
      if s.blockstart == 0 { InFirstPass(g, dis, s); }
      SameEvaluation(g, dis, s);
    }
  }

  /** After a flip, too, the enabled vertex 0 makes no difference. */
  lemma CoincidingFlip(g: Game, dis: seq<bool>, s: State)
    requires Sized(g, s) && |dis| == g.Size() && Inv(g, dis, s) && Coinciding(g, dis, s) && Deferring(g, dis) && !SelfResetting(g)
    requires AtBlockEnd(g, dis, s) && s.q != []
    ensures Instance(g, Enabled(dis)) && Step(g, Enabled(dis), s) == Step(g, dis, s)
    ensures Step(g, dis, s).Running? && Coinciding(g, dis, Step(g, dis, s).s)
  {
    hide Winning, Labels, FirstGood, OneStep, Deferring, Propagate;
    var t := EndBlock(g, dis, s);
    FlipRestarts(g, dis, s);
    StepInv(g, Enabled(dis), s);
    hide EndBlock, Inv;
    assert EndBlock(g, Enabled(dis), s) == t by { SameFlip(g, dis, s); }
    SameEvaluation(g, dis, NextBlock(g, t));
  }

  lemma SameFlip(g: Game, dis: seq<bool>, s: State)
    requires Sized(g, s) && |dis| == g.Size() > 0 && s.q != []
    ensures EndBlock(g, Enabled(dis), s) == EndBlock(g, dis, s)
  {
  }

  lemma FlipRestarts(g: Game, dis: seq<bool>, s: State)
    requires Sized(g, s) && |dis| == g.Size() && Inv(g, dis, s) && Coinciding(g, dis, s) && AtBlockEnd(g, dis, s) && s.q != []
    ensures var t := EndBlock(g, dis, s);
      && t.i < g.Size() && (t.i == 0 || t.i in Dom(dis)) && t.justified[0] == t.distraction[0] && (t.i == 0 || t.justified[0])
      && (t.i == 0 ==> 0 < NextOther(g, dis, 0, g.Parity(0)))
  {
    hide Winning, Labels;
    EndBlockFlips(g, dis, s);
    hide EndBlock;
  }

  lemma CoincidingQuiet(g: Game, dis: seq<bool>, s: State)
    requires Sized(g, s) && |dis| == g.Size() && Inv(g, dis, s) && Coinciding(g, dis, s) && Deferring(g, dis) && !SelfResetting(g)
    requires AtBlockEnd(g, dis, s) && s.q == [] && s.justified[0]
    ensures Instance(g, Enabled(dis)) && Step(g, Enabled(dis), s) == Step(g, dis, s)
    ensures Step(g, dis, s).Running? ==> Coinciding(g, dis, Step(g, dis, s).s)
  {
    hide Winning, Labels, FirstGood, OneStep, Deferring;
    StepInv(g, Enabled(dis), s);
    hide Inv;
    assert JustifyBlock(g, Enabled(dis), s) == JustifyBlock(g, dis, s);
    if s.i < g.Size() { SameEvaluation(g, dis, NextBlock(g, JustifyBlock(g, dis, s))); }
  }

  lemma CoincidingClean(g: Game, dis: seq<bool>, s: State)
    requires Instance(g, dis) && Sized(g, s) && Kept(g, dis, s) && Coinciding(g, dis, s)
    ensures Instance(g, Enabled(dis)) && Clean(g, Enabled(dis), s) && Benign(g, Enabled(dis))
  {
    hide Winning, Labels;
  }

  /** Where the run is one of the enabled game, it goes on to be one or leaves vertex 0 for good. */
  lemma CoincidingStep(g: Game, dis: seq<bool>, s: State)
    requires Sized(g, s) && |dis| == g.Size() && Inv(g, dis, s) && Kept(g, dis, s) && Coinciding(g, dis, s)
    requires Deferring(g, dis) && !SelfResetting(g)
    ensures var o := Step(g, dis, s);
      o.Running? ==> Measure(g, o.s) < Measure(g, s) && (Coinciding(g, dis, o.s) || Abandoned(g, dis, o.s))
  {
    hide Kept, Clean, Measure, Deferring, Benign, EndBlock, Evaluate, Winning, Labels, Scanning, Abandoned, Harmless;
    if AtBlockEnd(g, dis, s) && s.q == [] && !s.justified[0] {
      QuietAbandons(g, dis, s);
      StepDecreases(g, dis, s);
    } else {
      CoincidingClean(g, dis, s);
      StepClean(g, Enabled(dis), s);
      if !AtBlockEnd(g, dis, s) {
        CoincidingScan(g, dis, s);
        StepInv(g, Enabled(dis), s);
        ScanKeepsZero(g, dis, s);
      } else if s.q != [] {
        CoincidingFlip(g, dis, s);
      } else {
        CoincidingQuiet(g, dis, s);
      }
    }
  }

  lemma ScanKeepsZero(g: Game, dis: seq<bool>, s: State)
    requires Sized(g, s) && |dis| == g.Size() && s.i < g.Size() && !AtBlockEnd(g, dis, s)
    ensures var t := Step(g, dis, s).s;
      t.i == s.i + 1 && t.justified == s.justified && t.distraction == s.distraction && t.blockstart == s.blockstart
    ensures Step(g, dis, s).Running?
  {
  }

  /** At a restart of the first block, before vertex 0 is evaluated, it does not matter that it is disabled. */
  lemma EnabledInv(g: Game, dis: seq<bool>, s: State)
    requires Inv(g, dis, s) && s.i == 0 == s.blockstart && s.q == [] && !s.justified[0] && !s.distraction[0]
    requires forall v: nat :: v < g.Size() && s.justified[v] ==> v in Dom(dis) && !g.Edge(v, 0)
    ensures Inv(g, Enabled(dis), s)
  {
    var e := Enabled(dis);
    EnabledInstance(g, dis);
    assert Just(g, e, s) == Just(g, dis, s);
    forall v | v in Just(g, e, s) ensures Locally(g, e, s, v) { assert Locally(g, dis, s, v); }
    EnabledLabels(g, dis, s);
  }

  lemma EnabledLabels(g: Game, dis: seq<bool>, s: State)
    requires Inv(g, dis, s) && s.i == 0 == s.blockstart && !s.justified[0]
    requires forall v: nat :: v < g.Size() && s.justified[v] ==> v in Dom(dis) && !g.Edge(v, 0)
    ensures exists c :: Labels(g, Enabled(dis), s, c)
  {
    hide Winning, Scanning, NextOther;
    var e := Enabled(dis);
    var b :| Labels(g, dis, s, b);
    var c := b[0 := BlockEnd(g, e, 0)];
    assert s.curParity == g.Parity(0) by { ScanningParity(g, dis, s); }
    EnabledInstance(g, dis);
    forall v | 0 <= v < g.Size() ensures BlockEnd(g, e, v) == BlockEnd(g, dis, v) { LaterNext(g, dis, v + 1, g.Parity(v)); }
    BlockEndFrom(g, e, 0, g.Parity(0), 0);
    hide BlockEnd;
    assert forall v :: v in Dom(e) <==> v == 0 || v in Dom(dis);
    forall v, w | v in Dom(e) && s.justified[v] && w in Dom(e) && Supports(g, s.strategy, v, w) ensures c[v] <= c[w] {
      assert v != 0 && w != 0 && v in Dom(dis) && w in Dom(dis);
    }
    hide Supports;
    assert Labels(g, e, s, c);
  }

  /** The first pass leaves everything blank, and the restart after it evaluates vertex 0. */
  lemma FirstPassEnds(g: Game, dis: seq<bool>, s: State)
    requires Sized(g, s) && |dis| == g.Size() && Inv(g, dis, s) && dis[0] && FirstPass(g, dis, s, s.i) && AtBlockEnd(g, dis, s)
    requires Deferring(g, dis) && !SelfResetting(g) && s.q != []
    ensures Step(g, dis, s).Running? && Coinciding(g, dis, Step(g, dis, s).s)
  {
    var t := NextBlock(g, EndBlock(g, dis, s));
    FirstRestart(g, dis, s);
    EndBlockInv(g, dis, s);
    EnabledInv(g, dis, t);
    hide EndBlock, Inv, FirstPass, Deferring, FirstGood, OneStep;
    assert 0 < NextOther(g, dis, 0, g.Parity(0));
    SameEvaluation(g, dis, t);
    assert NextOther(g, Enabled(dis), 0, g.Parity(0)) > 0;
    assert t.curParity == g.Parity(0);
    EvaluateInv(g, Enabled(dis), t);
  }

  lemma FirstRestart(g: Game, dis: seq<bool>, s: State)
    requires Sized(g, s) && |dis| == g.Size() && Inv(g, dis, s) && dis[0] && FirstPass(g, dis, s, s.i) && AtBlockEnd(g, dis, s)
    requires Deferring(g, dis) && s.q != []
    ensures var t := EndBlock(g, dis, s);
      && t.i == 0 && t.q == [] && !t.justified[0] && !t.distraction[0]
      && forall v: nat :: v < g.Size() && t.justified[v] ==> v in Dom(dis) && !g.Edge(v, 0)
  {
    hide Winning, Labels, OneStep, FirstGood;
    EndBlockFlips(g, dis, s);
    hide EndBlock;
    assert s.i == NextOther(g, dis, 0, g.Parity(0));
  }

  ghost predicate Deferred(g: Game, dis: seq<bool>, s: State)
    requires Instance(g, dis) && Sized(g, s)
  {
    (dis[0] && FirstPass(g, dis, s, s.i)) || Coinciding(g, dis, s) || Abandoned(g, dis, s)
  }

  lemma DeferredStep(g: Game, dis: seq<bool>, s: State)
    requires Instance(g, dis) && Sized(g, s) && Inv(g, dis, s) && Kept(g, dis, s) && Deferred(g, dis, s)
    requires Deferring(g, dis) && !SelfResetting(g)
    ensures var o := Step(g, dis, s); o.Running? ==> Measure(g, o.s) < Measure(g, s) && Deferred(g, dis, o.s)
  {
    hide Inv, Kept, Measure, Deferring, Step, Harmless, FirstPass, Coinciding, Abandoned, SelfResetting;
    if Coinciding(g, dis, s) {
      CoincidingStep(g, dis, s);
    } else if Abandoned(g, dis, s) {
      AbandonedStep(g, dis, s);
      StepDecreases(g, dis, s);
    } else {
      FirstPassHarmless(g, dis, s);
      StepDecreases(g, dis, s);
      if !AtBlockEnd(g, dis, s) {
        FirstPassGoesOn(g, dis, s);
      } else if s.q != [] {
        FirstPassEnds(g, dis, s);
      } else {
        FirstPassQuiet(g, dis, s);
      }
    }
  }

  lemma FirstPassHarmless(g: Game, dis: seq<bool>, s: State)
    requires Sized(g, s) && |dis| == g.Size() && Inv(g, dis, s) && FirstPass(g, dis, s, s.i)
    ensures Harmless(g, dis, s)
  {
    hide Winning, Labels, OneStep;
  }

  lemma FirstPassGoesOn(g: Game, dis: seq<bool>, s: State)
    requires Sized(g, s) && |dis| == g.Size() && Inv(g, dis, s) && FirstPass(g, dis, s, s.i) && !AtBlockEnd(g, dis, s)
    ensures FirstPass(g, dis, Step(g, dis, s).s, Step(g, dis, s).s.i)
  {
    hide Winning, Labels, OneStep, FirstGood;
    InFirstPass(g, dis, s);
    FirstPassStep(g, dis, s, s.i);
  }

  lemma FirstPassQuiet(g: Game, dis: seq<bool>, s: State)
    requires Sized(g, s) && |dis| == g.Size() && Inv(g, dis, s) && dis[0] && FirstPass(g, dis, s, s.i) && AtBlockEnd(g, dis, s)
    requires s.q == []
    ensures Step(g, dis, s).Running? ==> Abandoned(g, dis, Step(g, dis, s).s)
  {
    hide Winning, Labels, OneStep, FirstGood;
    QuietAbandons(g, dis, s);
  }

  lemma {:induction false} DeferredFinishes(g: Game, dis: seq<bool>, s: State, budget: nat)
    requires Instance(g, dis) && Sized(g, s) && Inv(g, dis, s) && Kept(g, dis, s) && Deferred(g, dis, s)
    requires Deferring(g, dis) && !SelfResetting(g) && Measure(g, s) < budget
    ensures Run(g, dis, s, budget).Finished?
    decreases budget
  {
    hide Inv, Kept, Step, Deferring, Deferred, Measure, SelfResetting;
    DeferredStep(g, dis, s);
    StepKept(g, dis, s);
    StepInv(g, dis, s);
    if Step(g, dis, s).Running? { DeferredFinishes(g, dis, Step(g, dis, s).s, budget - 1); }
  }

  // ---------------------------------------------------------------------------------------------------------
  // Vertex 0 rests on nothing
  // ---------------------------------------------------------------------------------------------------------

  /** Vertex 0 can flip once, and is then out of the way. */
  ghost function StrandedMeasure(g: Game, s: State): nat
    requires Sized(g, s) && g.Size() > 0
  {
    Measure(g, s) + if s.justified[0] then 0 else Bound(g)
  }

  lemma MeasureBound(g: Game, s: State)
    requires Sized(g, s) && g.Size() > 0
    ensures Measure(g, s) < Bound(g)
  {
    WeightStep(Weight(s.distraction), Pow2(g.Size()), g.Size() + 2);
  }

  lemma StrandedHarmless(g: Game, dis: seq<bool>, s: State)
    requires Inv(g, dis, s) && dis[0] && Stranded(g, dis) && !SelfResetting(g) && 0 !in s.q
    ensures Harmless(g, dis, s)
  {
  }

  /** A flipped vertex 0 is not reset again. */
  lemma StrandedStays(g: Game, dis: seq<bool>, s: State)
    requires Inv(g, dis, s) && Kept(g, dis, s) && dis[0] && Stranded(g, dis) && !SelfResetting(g)
    requires s.justified[0] || 0 in s.q
    requires s.q != []
    ensures EndBlock(g, dis, s).justified[0]
  {
    hide Winning, Labels;
    var m := Marked(g, s);
    var top: set<nat> := Dom(dis) + {0};
    var low: set<nat> := Dom(dis);
    forall v, w | 0 <= v < g.Size() && m.justified[v] && w in top && Supports(g, s.strategy, v, w) ensures v in low {
      assert v == 0 || v in Dom(dis);
      if v == 0 { ZeroRestsOnNothing(g, dis, s, w); }
    }
    PropagateWithin(g, m, top, low);
    assert !Gone(m.justified, Propagate(g, m).justified, 0);
  }

  lemma ZeroRestsOnNothing(g: Game, dis: seq<bool>, s: State, w: nat)
    requires Inv(g, dis, s) && Kept(g, dis, s) && dis[0] && Stranded(g, dis) && !SelfResetting(g)
    requires s.justified[0] || 0 in s.q
    requires w in Dom(dis) || w == 0
    ensures !Supports(g, s.strategy, 0, w)
  {
  }

  lemma StrandedStep(g: Game, dis: seq<bool>, s: State)
    requires Sized(g, s) && |dis| == g.Size() && Inv(g, dis, s) && Kept(g, dis, s)
    requires dis[0] && Stranded(g, dis) && !SelfResetting(g)
    ensures Step(g, dis, s).Running? ==> StrandedMeasure(g, Step(g, dis, s).s) < StrandedMeasure(g, s)
  {
    hide Kept, Measure, Winning, Labels, Scanning, Harmless, Propagate, Stranded, FirstGood, OneStep, Marked;
    MeasureBound(g, s);
    if AtBlockEnd(g, dis, s) && 0 in s.q {
      NotJustified(g, dis, s);
      StrandedStays(g, dis, s);
      hide EndBlock;
      if Step(g, dis, s).Running? { MeasureBound(g, Step(g, dis, s).s); }
    } else {
      if 0 !in s.q { StrandedHarmless(g, dis, s); }
      StepDecreases(g, dis, s);
      if AtBlockEnd(g, dis, s) && s.justified[0] && s.q != [] { StrandedStays(g, dis, s); }
    }
  }

  lemma NotJustified(g: Game, dis: seq<bool>, s: State)
    requires Inv(g, dis, s) && 0 in s.q
    ensures !s.justified[0]
  {
  }

  lemma {:induction false} StrandedFinishes(g: Game, dis: seq<bool>, s: State, budget: nat)
    requires Sized(g, s) && |dis| == g.Size() && Inv(g, dis, s) && Kept(g, dis, s)
    requires dis[0] && Stranded(g, dis) && !SelfResetting(g) && StrandedMeasure(g, s) < budget
    ensures Run(g, dis, s, budget).Finished?
    decreases budget
  {
    hide Inv, Kept, Step, Stranded, StrandedMeasure;
    StrandedStep(g, dis, s);
    StepKept(g, dis, s);
    StepInv(g, dis, s);
    if Step(g, dis, s).Running? { StrandedFinishes(g, dis, Step(g, dis, s).s, budget - 1); }
  }

  // ---------------------------------------------------------------------------------------------------------
  // Vertex 0 is not drawn
  // ---------------------------------------------------------------------------------------------------------

  /** The marks `d` of the first block, which leave vertex 0 where it is, are not exceeded while that block is at work,
      and vertex 0 is left alone. */
  ghost predicate Unmoved(g: Game, dis: seq<bool>, d: seq<bool>, s: State)
    requires Instance(g, dis) && Sized(g, s) && |d| == g.Size()
  {
    && dis[0] && Marks(g, dis, d) && Saturated(g, dis, d) && OneStep(g, dis, d, 0) == g.Parity(0)
    && !s.justified[0] && 0 !in s.q
    && (s.blockstart == 0 ==> Fewer(s.distraction, d) && forall v :: v in s.q ==> d[v])
  }

  lemma UnmovedEvaluate(g: Game, dis: seq<bool>, d: seq<bool>, s: State)
    requires Sized(g, s) && |dis| == |d| == g.Size() && Inv(g, dis, s) && Unmoved(g, dis, d, s)
    requires s.i < NextOther(g, dis, s.blockstart, s.curParity) && (s.i == 0 || !dis[s.i])
    ensures Unmoved(g, dis, d, Evaluate(g, dis, s))
  {
    hide Winning, Labels, FirstGood, OneStep;
    if s.blockstart == 0 && OneStep(g, dis, s.distraction, s.i) != g.Parity(0) {
      OneStepMonotone(g, dis, s.distraction, d, s.i);
      assert InFirstBlock(g, dis, s.i);
    }
  }

  lemma UnmovedEndBlock(g: Game, dis: seq<bool>, d: seq<bool>, s: State)
    requires Sized(g, s) && |dis| == |d| == g.Size() && Inv(g, dis, s) && Unmoved(g, dis, d, s)
    requires AtBlockEnd(g, dis, s) && EndBlock(g, dis, s).i < g.Size()
    ensures Unmoved(g, dis, d, NextBlock(g, EndBlock(g, dis, s)))
  {
    hide Winning, Labels, OneStep, Saturated, Marks, Propagate;
    if s.q != [] {
      assert s.blockstart <= s.i by { assert Scanning(g, dis, s); }
      EndBlockFlips(g, dis, s);
      hide EndBlock;
    }
  }

  lemma UnmovedStep(g: Game, dis: seq<bool>, d: seq<bool>, s: State)
    requires Sized(g, s) && |dis| == |d| == g.Size() && Inv(g, dis, s) && Unmoved(g, dis, d, s)
    ensures Step(g, dis, s).Running? ==> Unmoved(g, dis, d, Step(g, dis, s).s)
    ensures Harmless(g, dis, s)
  {
    assert Harmless(g, dis, s);
    if s.i < g.Size() && dis[s.i] {
      assert Step(g, dis, s).s == s.(i := s.i + 1);
    } else {
      hide Unmoved, EndBlock, Evaluate, Core, Labels;
      if BlockEnded(g, s) {
        var t := EndBlock(g, dis, s);
        if t.i < g.Size() {
          EndBlockInv(g, dis, s);
          UnmovedEndBlock(g, dis, d, s);
          InsideBlock(g, dis, NextBlock(g, t));
          UnmovedEvaluate(g, dis, d, NextBlock(g, t));
        }
      } else {
        InsideBlock(g, dis, s);
        UnmovedEvaluate(g, dis, d, s);
      }
    }
  }

  lemma {:induction false} UnmovedFinishes(g: Game, dis: seq<bool>, d: seq<bool>, s: State, budget: nat)
    requires Sized(g, s) && |dis| == |d| == g.Size() && Inv(g, dis, s) && Kept(g, dis, s)
    requires Unmoved(g, dis, d, s) && Measure(g, s) < budget
    ensures Run(g, dis, s, budget).Finished?
    decreases budget
  {
    hide Inv, Kept, Step, Unmoved, Measure, Harmless;
    UnmovedStep(g, dis, d, s);
    StepDecreases(g, dis, s);
    StepKept(g, dis, s);
    StepInv(g, dis, s);
    if Step(g, dis, s).Running? { UnmovedFinishes(g, dis, d, Step(g, dis, s).s, budget - 1); }
  }

  lemma InitialUnmoved(g: Game, dis: seq<bool>, strategy: seq<int>)
    requires Instance(g, dis) && |strategy| == g.Size() && dis[0] && !Drawn(g, dis)
    ensures Sized(g, Initial(g, strategy)) && Unmoved(g, dis, FirstFixpoint(g, dis), Initial(g, strategy))
  {
    hide Saturation, OneStep, Saturated;
    SaturationCloses(g, dis, AllFalse(g.Size()));
  }

  // ---------------------------------------------------------------------------------------------------------
  // Vertex 0 is drawn by what it resets
  // ---------------------------------------------------------------------------------------------------------

  /** The loop is still in its first block, and vertex 0 is queued exactly if the present distractions drive it to.
      Before its first evaluation this is the first pass. */
  ghost predicate Circling(g: Game, dis: seq<bool>, s: State)
    requires Instance(g, dis) && Sized(g, s)
  {
    && s.blockstart == 0 && s.curParity == g.Parity(0) && !s.justified[0]
    && Marks(g, dis, s.distraction)
    && (FirstPass(g, dis, s, s.i)
        || (s.i > 0 && (0 in s.q <==> OneStep(g, dis, s.distraction, 0) != g.Parity(0))
            && s.strategy[0] == FirstGood(g, dis, s.distraction, 0, 0)))
  }

  /** The one-step rule confirms a justified vertex and an evaluated one that is not queued. */
  lemma Confirmed(g: Game, dis: seq<bool>, s: State, v: nat)
    requires Core(g, dis, s) && v in Dom(dis) && s.curParity == g.Parity(v)
    requires if s.justified[v] then !s.distraction[v] else s.blockstart <= v < s.i && v !in s.q
    ensures OneStep(g, dis, s.distraction, v) == g.Parity(v)
  {
    FirstGoodMeaning(g, dis, s.distraction, v, 0);
    var to := FirstGood(g, dis, s.distraction, v, 0);
    hide FirstGood, CyclesWon, NextOther;
    if s.justified[v] {
      assert v in Just(g, dis, s) && Locally(g, dis, s, v);
      if s.strategy[v] != -1 {
        assert Supports(g, s.strategy, v, s.strategy[v]);
        var j :| 0 <= j < |g.outs[v]| && g.outs[v][j] == s.strategy[v];
      } else if to != -1 {
        assert Supports(g, s.strategy, v, to);
      }
    } else {
      assert Evaluated(g, dis, s, v);
      if s.strategy[v] != -1 { var j :| 0 <= j < |g.outs[v]| && g.outs[v][j] == s.strategy[v]; }
    }
  }

  /** At the end of a pass without distractions the first block is saturated. */
  lemma QuietSaturated(g: Game, dis: seq<bool>, s: State)
    requires Core(g, dis, s) && s.blockstart == 0 && s.curParity == g.Parity(0) && s.q == []
    requires s.i == NextOther(g, dis, 0, g.Parity(0)) && Marks(g, dis, s.distraction)
    ensures Saturated(g, dis, s.distraction)
  {
    hide Winning, Scanning, OneStep, NextOther;
    forall v: nat | InFirstBlock(g, dis, v) && OneStep(g, dis, s.distraction, v) != g.Parity(0) ensures s.distraction[v] {
      if !s.distraction[v] { Confirmed(g, dis, s, v); }
    }
  }

  /** As long as vertex 0 is drawn, no pass is without distractions. */
  lemma NeverQuiet(g: Game, dis: seq<bool>, s: State)
    requires Instance(g, dis) && Sized(g, s) && Inv(g, dis, s) && Circling(g, dis, s) && AtBlockEnd(g, dis, s)
    requires dis[0] && !Benign(g, dis) && Drawn(g, dis)
    ensures s.q != []
  {
    hide Labels, OneStep, Winning;
    assert s.i == NextOther(g, dis, 0, g.Parity(0));
    if s.q == [] {
      QuietSaturated(g, dis, s);
      var d := FirstFixpoint(g, dis);
      SaturationCloses(g, dis, AllFalse(g.Size()));
      SaturationLeast(g, dis, AllFalse(g.Size()), s.distraction);
      OneStepMonotone(g, dis, d, s.distraction, 0);
    }
  }

  /** After a flip of the first block vertex 0 is still justified. */
  ghost predicate Survives(g: Game, dis: seq<bool>, s: State, t: State)
    requires Instance(g, dis) && Sized(g, s) && Sized(g, t)
  {
    && Inv(g, dis, s) && Kept(g, dis, s) && Circling(g, dis, s) && dis[0] && 0 in s.q
    && Flipped(g, s, t) && t.i == t.blockstart == 0 && t.curParity == g.Parity(0) && t.justified[0]
  }

  /** A marked vertex that the fixpoint with vertex 0 enabled leaves out. */
  ghost predicate Unfounded(g: Game, dis: seq<bool>, t: State, v: nat)
    requires Instance(g, dis) && Sized(g, t)
  {
    v < g.Size() && t.distraction[v] && !FirstFixpoint(g, dis[0 := false])[v]
  }

  lemma EnabledInstance(g: Game, dis: seq<bool>)
    requires Instance(g, dis)
    ensures Instance(g, dis[0 := false]) && NextOther(g, dis[0 := false], 0, g.Parity(0)) == NextOther(g, dis, 0, g.Parity(0))
    ensures var c := FirstFixpoint(g, dis[0 := false]); Marks(g, dis[0 := false], c) && Saturated(g, dis[0 := false], c)
  {
    var e: seq<bool> := dis[0 := false];
    LaterNext(g, dis, 1, g.Parity(0));
    assert NextOther(g, e, 0, g.Parity(0)) == NextOther(g, e, 1, g.Parity(0));
    assert NextOther(g, dis, 0, g.Parity(0)) == NextOther(g, dis, 1, g.Parity(0));
    SaturationCloses(g, e, AllFalse(g.Size()));
  }

  lemma {:induction false} LaterNext(g: Game, dis: seq<bool>, k: nat, p: Player)
    requires Instance(g, dis) && 1 <= k <= g.Size()
    ensures NextOther(g, dis[0 := false], k, p) == NextOther(g, dis, k, p)
    decreases g.Size() - k
  {
    if k < g.Size() { LaterNext(g, dis, k + 1, p); }
  }

  /** What a surviving mark rests on has the value that favours it, and is not vertex 0. */
  lemma SurvivorRests(g: Game, dis: seq<bool>, s: State, t: State, v: nat)
    requires Instance(g, dis) && Sized(g, s) && Sized(g, t) && Survives(g, dis, s, t)
    requires v < g.Size() && t.distraction[v]
    ensures v == 0 || v in Just(g, dis, t)
    ensures g.Parity(v) == g.Parity(0) && !(g.Edge(v, 0) && t.strategy[v] == -1)
    ensures if t.strategy[v] == -1 then g.owner[v] == g.Parity(0)
      else t.strategy[v] >= 0 && t.strategy[v] in Dom(dis) && g.Edge(v, t.strategy[v]) && g.owner[v] == 1 - g.Parity(0)
    ensures forall w :: w in Dom(dis) && Supports(g, t.strategy, v, w) ==> Value(g, t.distraction, w) == 1 - g.Parity(0)
  {
    FirstGoodMeaning(g, dis, s.distraction, 0, 0);
    hide FirstGood, CyclesWon, Labels, Saturation;
    assert t.justified[v] by { assert s.distraction[v] || v in s.q; }
    assert Supports(g, t.strategy, v, 0) <== g.Edge(v, 0) && t.strategy[v] == -1;
    if v == 0 {
      forall w | w in Dom(dis) && Supports(g, t.strategy, 0, w) ensures Value(g, t.distraction, w) == 1 - g.Parity(0) {
        SurvivorAtZero(g, dis, s, t, w);
      }
    } else {
      assert v in Just(g, dis, t);
      FlipLocally(g, dis, s, t, v);
      assert Value(g, t.distraction, v) == 1 - g.Parity(0) by { assert s.distraction[v] || v in s.q; }
    }
  }

  lemma SurvivorAtZero(g: Game, dis: seq<bool>, s: State, t: State, w: nat)
    requires Instance(g, dis) && Sized(g, s) && Sized(g, t) && Survives(g, dis, s, t)
    requires w in Dom(dis) && Supports(g, t.strategy, 0, w)
    ensures Value(g, t.distraction, w) == 1 - g.Parity(0)
  {
    FirstGoodMeaning(g, dis, s.distraction, 0, 0);
    hide FirstGood, CyclesWon, Labels;
    assert !(w in s.q) && !Lost(s, t, w);
    assert t.distraction[w] == s.distraction[w];
    var j :| 0 <= j < |g.outs[0]| && g.outs[0][j] == w;
  }

  /** An unfounded mark rests on another one, at an enabled vertex. */
  lemma UnfoundedRests(g: Game, dis: seq<bool>, s: State, t: State, v: nat) returns (w: nat)
    requires Instance(g, dis) && Sized(g, s) && Sized(g, t) && Survives(g, dis, s, t) && Unfounded(g, dis, t, v)
    ensures w in Just(g, dis, t) && Unfounded(g, dis, t, w) && Supports(g, t.strategy, v, w)
  {
    var e: seq<bool> := dis[0 := false];
    EnabledInstance(g, dis);
    var c := FirstFixpoint(g, e);
    SurvivorRests(g, dis, s, t, v);
    assert InFirstBlock(g, e, v) by { MarkedInFirst(g, dis, s, t, v); }
    assert OneStep(g, e, c, v) == g.Parity(0);
    FirstGoodMeaning(g, e, c, v, 0);
    var to := FirstGood(g, e, c, v, 0);
    hide FirstGood, OneStep, Survives, Saturation, FirstFixpoint;
    if t.strategy[v] != -1 {
      w := t.strategy[v];
      assert Supports(g, t.strategy, v, w);
      var j :| 0 <= j < |g.outs[v]| && g.outs[v][j] == w;
      assert Value(g, c, w) == g.Parity(0);
    } else {
      w := to;
      assert w != 0;
      assert Supports(g, t.strategy, v, w);
    }
    UnfoundedTarget(g, dis, t, c, w);
    SurvivorRests(g, dis, s, t, w);
  }

  lemma UnfoundedTarget(g: Game, dis: seq<bool>, t: State, c: seq<bool>, w: nat)
    requires Instance(g, dis) && Sized(g, t) && Instance(g, dis[0 := false]) && Marks(g, dis[0 := false], c)
    requires NextOther(g, dis[0 := false], 0, g.Parity(0)) == NextOther(g, dis, 0, g.Parity(0))
    requires w in Dom(dis) && Value(g, t.distraction, w) == 1 - g.Parity(0) && Value(g, c, w) == g.Parity(0)
    ensures t.distraction[w] && !c[w]
  {
    hide NextOther;
  }

  lemma MarkedInFirst(g: Game, dis: seq<bool>, s: State, t: State, v: nat)
    requires Instance(g, dis) && Sized(g, s) && Sized(g, t) && Survives(g, dis, s, t)
    requires v < g.Size() && t.distraction[v] && Instance(g, dis[0 := false])
    requires NextOther(g, dis[0 := false], 0, g.Parity(0)) == NextOther(g, dis, 0, g.Parity(0))
    ensures InFirstBlock(g, dis[0 := false], v)
  {
    hide Winning, Labels, FirstGood, OneStep;
    assert s.distraction[v] || v in s.q;
    if v in s.q { assert v == 0 || v in Dom(dis); }
  }

  ghost predicate RestsOnNext(g: Game, t: State, w: seq<nat>, k: nat)
    requires Sized(g, t) && k + 1 < |w|
  {
    w[k] < g.Size() && Supports(g, t.strategy, w[k], w[k + 1])
  }

  lemma {:induction false} UnfoundedPath(g: Game, dis: seq<bool>, s: State, t: State, v: nat, len: nat) returns (w: seq<nat>)
    requires Instance(g, dis) && Sized(g, s) && Sized(g, t) && Survives(g, dis, s, t) && Unfounded(g, dis, t, v)
    ensures |w| == len && forall k :: 0 <= k < len ==> w[k] in Just(g, dis, t) && Unfounded(g, dis, t, w[k])
    ensures forall k: nat :: k + 1 < len ==> RestsOnNext(g, t, w, k)
    ensures len > 0 ==> Supports(g, t.strategy, v, w[0])
    decreases len
  {
    hide Survives, Unfounded, Just, Supports;
    if len == 0 {
      w := [];
    } else {
      var x := UnfoundedRests(g, dis, s, t, v);
      var rest := UnfoundedPath(g, dis, s, t, x, len - 1);
      w := [x] + rest;
      assert x < g.Size() by { JustInside(g, dis, t, x); }
      forall k: nat | k + 1 < len ensures RestsOnNext(g, t, w, k) {
        if k > 0 { var l := k - 1; assert RestsOnNext(g, t, rest, l); }
      }
    }
  }

  lemma JustInside(g: Game, dis: seq<bool>, t: State, x: nat)
    requires Instance(g, dis) && Sized(g, t) && x in Just(g, dis, t)
    ensures x < g.Size()
  {
  }

  /** Long enough a path of unfounded marks closes a circle. */
  lemma UnfoundedLoop(g: Game, dis: seq<bool>, s: State, t: State, v: nat) returns (u: seq<nat>)
    requires Instance(g, dis) && Sized(g, s) && Sized(g, t) && Survives(g, dis, s, t) && Unfounded(g, dis, t, v)
    ensures |u| >= 2 && u[0] == u[|u| - 1] && forall k :: 0 <= k < |u| ==> u[k] in Just(g, dis, t) && Unfounded(g, dis, t, u[k])
    ensures forall k: nat :: k + 1 < |u| ==> RestsOnNext(g, t, u, k)
  {
    hide Survives, Unfounded, Just, Supports, RestsOnNext, Sized;
    var w := UnfoundedPath(g, dis, s, t, v, g.Size() + 1);
    forall k | 0 <= k < |w| ensures w[k] < g.Size() { JustInside(g, dis, t, w[k]); }
    var i, j := Repetition(w, g.Size());
    u := w[i..j + 1];
    forall k | 0 <= k < |u| ensures u[k] in Just(g, dis, t) && Unfounded(g, dis, t, u[k]) { assert u[k] == w[i + k]; }
    forall k: nat | k + 1 < |u| ensures RestsOnNext(g, t, u, k) { RestsInside(g, t, w, i, j + 1, k); }
  }

  lemma RestsInside(g: Game, t: State, w: seq<nat>, i: nat, j: nat, k: nat)
    requires Sized(g, t) && i <= j <= |w| && k + 1 < j - i
    requires forall l: nat :: l + 1 < |w| ==> RestsOnNext(g, t, w, l)
    ensures RestsOnNext(g, t, w[i..j], k)
  {
    var l := i + k;
    assert RestsOnNext(g, t, w, l);
  }

  /** Justifications do not run in circles of distractions, so a surviving mark is founded. */
  lemma NothingUnfounded(g: Game, dis: seq<bool>, s: State, t: State, v: nat)
    requires Instance(g, dis) && Sized(g, s) && Sized(g, t) && Survives(g, dis, s, t)
    ensures !Unfounded(g, dis, t, v)
  {
    SurvivorsWin(g, dis, s, t);
    hide Survives, Unfounded, Just, RestsOnNext, Won;
    if Unfounded(g, dis, t, v) {
      var u := UnfoundedLoop(g, dis, s, t, v);
      UnfoundedCircle(g, dis, s, t, u);
    }
  }

  lemma SurvivorsWin(g: Game, dis: seq<bool>, s: State, t: State)
    requires Instance(g, dis) && Sized(g, s) && Sized(g, t) && Survives(g, dis, s, t)
    ensures CyclesWon(g, Just(g, dis, t), Winners(g, t), t.strategy)
  {
    hide Circling, Labels, CyclesWon, Flipped;
    FlipCore(g, dis, s, t);
  }

  lemma UnfoundedCircle(g: Game, dis: seq<bool>, s: State, t: State, u: seq<nat>)
    requires Instance(g, dis) && Sized(g, s) && Sized(g, t) && Survives(g, dis, s, t)
    requires |u| >= 2 && u[0] == u[|u| - 1] && forall k :: 0 <= k < |u| ==> u[k] in Just(g, dis, t) && Unfounded(g, dis, t, u[k])
    requires forall k: nat :: k + 1 < |u| ==> RestsOnNext(g, t, u, k)
    ensures ClosedWalk(g, Just(g, dis, t), Winners(g, t), t.strategy, u) && !Won(g, Winners(g, t), u)
  {
    hide Saturation, FirstGood, OneStep, Labels, NextOther, Circling, Flipped, Inv;
    forall k | 0 <= k < |u| ensures u[k] < g.Size() && Winners(g, t)[u[k]] == 1 - g.Parity(0) && g.Parity(u[k]) == g.Parity(0) {
      SurvivorRests(g, dis, s, t, u[k]);
    }
    forall k | 0 <= k < |u| - 1 ensures Move(g, Just(g, dis, t), Winners(g, t), t.strategy, u[k], u[k + 1]) {
      var l: nat := k;
      assert RestsOnNext(g, t, u, l);
      SurvivorRests(g, dis, s, t, u[k]);
    }
  }

  /** If vertex 0 is drawn only because its own moves are ignored by what draws it, its flip resets it at once. */
  lemma ZeroLost(g: Game, dis: seq<bool>, s: State)
    requires Instance(g, dis) && Sized(g, s) && Inv(g, dis, s) && Kept(g, dis, s) && Circling(g, dis, s) && AtBlockEnd(g, dis, s)
    requires dis[0] && !DrawnEnabled(g, dis) && 0 in s.q
    ensures !EndBlock(g, dis, s).justified[0]
  {
    hide Labels, OneStep, Winning, Saturation, FirstGood;
    EndBlockFlips(g, dis, s);
    hide EndBlock;
    var t := EndBlock(g, dis, s);
    if t.justified[0] {
      NothingUnfounded(g, dis, s, t, 0);
    }
  }

  /** A restart evaluates vertex 0 again. */
  lemma CirclingRestart(g: Game, dis: seq<bool>, s: State)
    requires Instance(g, dis) && Sized(g, s) && Inv(g, dis, s) && Kept(g, dis, s) && Circling(g, dis, s) && AtBlockEnd(g, dis, s)
    requires dis[0] && !DrawnEnabled(g, dis) && s.q != []
    ensures var t := EndBlock(g, dis, s);
      && t.i == 0 && t.q == [] && t.blockstart == 0 && t.curParity == g.Parity(0) && !t.justified[0] && Marks(g, dis, t.distraction)
  {
    if 0 in s.q { ZeroLost(g, dis, s); }
    hide Labels, OneStep, Winning, FirstGood, DrawnEnabled;
    EndBlockFlips(g, dis, s);
    hide EndBlock;
    var t := EndBlock(g, dis, s);
    assert !t.justified[0] && !t.distraction[0];
    forall v: nat | v < g.Size() && t.distraction[v] ensures InFirstBlock(g, dis, v) {
      assert s.distraction[v] || v in s.q;
      if v in s.q { assert v == 0 || v in Dom(dis); }
    }
  }

  lemma CirclingEvaluate(g: Game, dis: seq<bool>, t: State)
    requires Instance(g, dis) && Sized(g, t) && t.i == 0 && t.q == [] && t.blockstart == 0 && t.curParity == g.Parity(0)
    requires !t.justified[0] && Marks(g, dis, t.distraction)
    ensures Circling(g, dis, Evaluate(g, dis, t))
  {
    hide FirstGood;
  }

  lemma CirclingScan(g: Game, dis: seq<bool>, s: State)
    requires Instance(g, dis) && Sized(g, s) && Inv(g, dis, s) && Circling(g, dis, s) && s.i < g.Size()
    requires dis[0] && (dis[s.i] || !BlockEnded(g, s))
    ensures Step(g, dis, s).Running? && Circling(g, dis, Step(g, dis, s).s)
  {
    hide Labels, Winning, FirstGood, OneStep;
    if FirstPass(g, dis, s, s.i) {
      InFirstPass(g, dis, s);
      FirstPassStep(g, dis, s, s.i);
    }
    if s.i == 0 { assert FirstPass(g, dis, s, 0); }
  }

  lemma InFirstPass(g: Game, dis: seq<bool>, s: State)
    requires Instance(g, dis) && Sized(g, s) && Inv(g, dis, s) && s.i < g.Size() && s.blockstart == 0 && s.curParity == g.Parity(0)
    requires dis[s.i] || !BlockEnded(g, s)
    ensures s.i < NextOther(g, dis, 0, g.Parity(0))
  {
    hide Winning, Labels;
  }

  lemma CirclingStep(g: Game, dis: seq<bool>, s: State)
    requires Instance(g, dis) && Sized(g, s) && Inv(g, dis, s) && Kept(g, dis, s) && Circling(g, dis, s)
    requires Trapped(g, dis)
    ensures Step(g, dis, s).Running? && Circling(g, dis, Step(g, dis, s).s)
  {
    assert dis[0] by { BenignIfEnabled(g, dis); }
    hide Circling, EndBlock, Evaluate, Core, Labels, Benign, Drawn, DrawnEnabled;
    if s.i < g.Size() && (dis[s.i] || !BlockEnded(g, s)) {
      CirclingScan(g, dis, s);
    } else {
      NeverQuiet(g, dis, s);
      CirclingRestart(g, dis, s);
      var t := EndBlock(g, dis, s);
      assert NextBlock(g, t) == t;
      CirclingEvaluate(g, dis, t);
    }
  }

  lemma {:induction false} CirclesOn(g: Game, dis: seq<bool>, s: State, budget: nat)
    requires Instance(g, dis) && Sized(g, s) && Inv(g, dis, s) && Kept(g, dis, s) && Circling(g, dis, s) && Trapped(g, dis)
    ensures Run(g, dis, s, budget).Running?
    decreases budget
  {
    hide Inv, Kept, Circling, Step, Trapped;
    if budget > 0 {
      CirclingStep(g, dis, s);
      StepKept(g, dis, s);
      StepInv(g, dis, s);
      CirclesOn(g, dis, Step(g, dis, s).s, budget - 1);
    }
  }

  // ---------------------------------------------------------------------------------------------------------
  // When the loop is left
  // ---------------------------------------------------------------------------------------------------------

  /** Vertex 0 cannot keep the loop from ending. */
  ghost predicate Tame(g: Game, dis: seq<bool>)
    requires Instance(g, dis)
  {
    || Benign(g, dis)
    || !Drawn(g, dis)
    || (!SelfResetting(g) && (Deferring(g, dis) || Stranded(g, dis)))
  }

  /** Vertex 0 keeps the loop in its first block: it is drawn, but would not be if it were enabled. */
  ghost predicate Trapped(g: Game, dis: seq<bool>)
    requires Instance(g, dis)
  {
    !Benign(g, dis) && Drawn(g, dis) && !DrawnEnabled(g, dis)
  }

  /** On tame inputs the loop is left within an explicit number of turns. */
  lemma TameFinishes(g: Game, dis: seq<bool>, strategy: seq<int>, budget: nat)
    requires Instance(g, dis) && |strategy| == g.Size() && Tame(g, dis) && budget >= 2 * Bound(g)
    ensures Sized(g, Initial(g, strategy)) && Run(g, dis, Initial(g, strategy), budget).Finished?
  {
    hide Inv, Kept, Measure, Bound, Run, Benign, Drawn, Unmoved, Deferring, Stranded, StrandedMeasure;
    var s := Initial(g, strategy);
    InitialInv(g, dis, strategy);
    InitialKept(g, dis, strategy);
    if Benign(g, dis) {
      InitialClean(g, dis, strategy);
      RunFinishes(g, dis, s, budget);
    } else {
      assert dis[0] by { BenignIfEnabled(g, dis); }
      if !Drawn(g, dis) {
        InitialUnmoved(g, dis, strategy);
        UnmovedFinishes(g, dis, FirstFixpoint(g, dis), s, budget);
      } else if Deferring(g, dis) {
        InitialFirst(g, dis, strategy);
        DeferredFinishes(g, dis, s, budget);
      } else {
        StrandedStart(g, s);
        StrandedFinishes(g, dis, s, budget);
      }
    }
  }

  lemma BenignIfEnabled(g: Game, dis: seq<bool>)
    requires Instance(g, dis)
    ensures !dis[0] ==> Benign(g, dis)
  {
  }

  lemma StrandedStart(g: Game, s: State)
    requires Sized(g, s) && g.Size() > 0 && Measure(g, s) < Bound(g)
    ensures StrandedMeasure(g, s) < 2 * Bound(g)
  {
  }

  /** On trapped inputs the loop is never left. */
  lemma TrappedRunsOn(g: Game, dis: seq<bool>, strategy: seq<int>, budget: nat)
    requires Instance(g, dis) && |strategy| == g.Size() && Trapped(g, dis)
    ensures Sized(g, Initial(g, strategy)) && Run(g, dis, Initial(g, strategy), budget).Running?
  {
    InitialInv(g, dis, strategy);
    InitialKept(g, dis, strategy);
    InitialCircles(g, dis, strategy);
    hide Inv, Kept, Circling, Trapped, Run;
    CirclesOn(g, dis, Initial(g, strategy), budget);
  }

  lemma InitialCircles(g: Game, dis: seq<bool>, strategy: seq<int>)
    requires Instance(g, dis) && |strategy| == g.Size()
    ensures Sized(g, Initial(g, strategy)) && Circling(g, dis, Initial(g, strategy))
  {
    InitialFirst(g, dis, strategy);
  }

  ghost predicate Ends(g: Game, dis: seq<bool>, strategy: seq<int>)
    requires Instance(g, dis) && |strategy| == g.Size()
  {
    exists budget: nat :: Run(g, dis, Initial(g, strategy), budget).Finished?
  }

  /** An enabled vertex 0 is not drawn by its own loop. */
  lemma SelfResettingNotDrawn(g: Game, dis: seq<bool>)
    requires Instance(g, dis) && SelfResetting(g)
    ensures !DrawnEnabled(g, dis)
  {
    var e: seq<bool> := dis[0 := false];
    EnabledInstance(g, dis);
    var r := FirstFixpoint(g, e);
    var c := r[0 := false];
    hide Saturation, OneStep, FirstGood, NextOther;
    forall v: nat | InFirstBlock(g, e, v) && OneStep(g, e, c, v) != g.Parity(0) ensures c[v] {
      if v == 0 { OwnLoop(g, e, c); } else { OneStepMonotone(g, e, c, r, v); }
    }
    SaturationLeast(g, e, AllFalse(g.Size()), c);
  }

  lemma OwnLoop(g: Game, e: seq<bool>, c: seq<bool>)
    requires Instance(g, e) && |c| == g.Size() && !e[0] && !c[0] && SelfResetting(g)
    ensures OneStep(g, e, c, 0) == g.Parity(0)
  {
    FirstGoodMeaning(g, e, c, 0, 0);
    var j :| 0 <= j < |g.outs[0]| && g.outs[0][j] == 0;
    hide FirstGood;
  }

  /** Vertex 0 lies between enabled vertices, and is drawn by vertices that take their moves to it into account. */
  ghost predicate Entangled(g: Game, dis: seq<bool>)
    requires Instance(g, dis)
  {
    !Benign(g, dis) && Drawn(g, dis) && DrawnEnabled(g, dis) && !Deferring(g, dis) && !Stranded(g, dis)
  }

  /** Unless vertex 0 is entangled with enabled vertices, the run ends if and only if it is not trapped. */
  lemma EndsIff(g: Game, dis: seq<bool>, strategy: seq<int>)
    requires Instance(g, dis) && |strategy| == g.Size() && !Entangled(g, dis)
    ensures Ends(g, dis, strategy) <==> !Trapped(g, dis)
  {
    hide Benign, Drawn, DrawnEnabled, Deferring, Stranded, Run, Bound, SelfResetting;
    if Trapped(g, dis) {
      forall budget: nat ensures Run(g, dis, Initial(g, strategy), budget).Running? {
        TrappedRunsOn(g, dis, strategy, budget);
      }
    } else {
      if SelfResetting(g) { SelfResettingNotDrawn(g, dis); }
      TameFinishes(g, dis, strategy, 2 * Bound(g));
    }
  }

  /** A disabled vertex 0 without enabled successors: whether the run ends is read off its own edges. */
  lemma StrandedEndsIff(g: Game, dis: seq<bool>, strategy: seq<int>)
    requires Instance(g, dis) && |strategy| == g.Size() && dis[0] && Stranded(g, dis)
    ensures Ends(g, dis, strategy) <==> Benign(g, dis) || !g.Edge(0, 0) || g.owner[0] != g.Parity(0)
  {
    hide Benign, Drawn, DrawnEnabled, Stranded, Deferring, Ends, Run, Bound;
    EndsIff(g, dis, strategy);
    StrandedDrawn(g, dis);
    if SelfResetting(g) {
      SelfResettingNotDrawn(g, dis);
    } else {
      TameFinishes(g, dis, strategy, 2 * Bound(g));
      assert Ends(g, dis, strategy) by { EndsAt(g, dis, strategy, 2 * Bound(g)); }
    }
  }

  lemma EndsAt(g: Game, dis: seq<bool>, strategy: seq<int>, budget: nat)
    requires Instance(g, dis) && |strategy| == g.Size() && Sized(g, Initial(g, strategy))
    requires Run(g, dis, Initial(g, strategy), budget).Finished?
    ensures Ends(g, dis, strategy)
  {
  }

  lemma StrandedDrawn(g: Game, dis: seq<bool>)
    requires Instance(g, dis) && dis[0] && Stranded(g, dis)
    ensures Drawn(g, dis) <==> g.owner[0] == g.Parity(0)
  {
    hide Saturation;
    var d := FirstFixpoint(g, dis);
    FirstGoodMeaning(g, dis, d, 0, 0);
  }

  /** If the enabled vertices with a move to vertex 0 come later and lose by it: likewise. */
  lemma DeferringEndsIff(g: Game, dis: seq<bool>, strategy: seq<int>)
    requires Instance(g, dis) && |strategy| == g.Size() && dis[0] && Deferring(g, dis)
    ensures Ends(g, dis, strategy) <==> Benign(g, dis) || !Drawn(g, dis) || !g.Edge(0, 0) || g.owner[0] != g.Parity(0)
  {
    hide Benign, Drawn, DrawnEnabled, Stranded, Deferring, Ends, Run, Bound;
    EndsIff(g, dis, strategy);
    if SelfResetting(g) {
      SelfResettingNotDrawn(g, dis);
    } else {
      TameFinishes(g, dis, strategy, 2 * Bound(g));
      assert Ends(g, dis, strategy) by { EndsAt(g, dis, strategy, 2 * Bound(g)); }
    }
  }

  /** A disabled vertex 0 that no enabled vertex can move to is the simplest case. */
  lemma AloofEndsIff(g: Game, dis: seq<bool>, strategy: seq<int>)
    requires Instance(g, dis) && |strategy| == g.Size() && dis[0] && Aloof(g, dis)
    ensures Ends(g, dis, strategy) <==> Benign(g, dis) || !Drawn(g, dis) || !g.Edge(0, 0) || g.owner[0] != g.Parity(0)
  {
    hide Benign, Drawn, Ends;
    DeferringEndsIff(g, dis, strategy);
  }

  /** What a sound and flushed solved part says about a vertex 0 whose owner does not own its priority. */
  lemma SolvedDefers(g: Game, dis: seq<bool>, win: seq<Player>, str: seq<int>)
    requires Instance(g, dis) && dis[0] && g.owner[0] != g.Parity(0)
    requires var solved := Vertices(g) - Dom(dis); PartialSolution(g, solved, win, str) && AttractorClosed(g, solved, win)
    ensures Stranded(g, dis) || forall v: nat :: v in Dom(dis) && g.Edge(v, 0) ==> g.owner[v] == g.Parity(0)
  {
    var solved := Vertices(g) - Dom(dis);
    assert 0 in solved && Repelled(g, solved, solved, win);
    hide Game.Valid, CorrectSolution;
    if win[0] != g.owner[0] {
      forall w: nat | w in Dom(dis) ensures !g.Edge(0, w) { assert w !in solved; }
    } else {
      forall v: nat | v in Dom(dis) && g.Edge(v, 0) ensures g.owner[v] == g.Parity(0) { assert v !in solved; }
    }
  }

  /** With such a solved part, the run ends if no enabled vertex of the first block has a move to vertex 0. */
  lemma SolvedEnds(g: Game, dis: seq<bool>, win: seq<Player>, str: seq<int>, strategy: seq<int>)
    requires Instance(g, dis) && |strategy| == g.Size() && dis[0] && g.owner[0] != g.Parity(0)
    requires var solved := Vertices(g) - Dom(dis); PartialSolution(g, solved, win, str) && AttractorClosed(g, solved, win)
    requires forall v: nat :: InFirstBlock(g, dis, v) ==> !g.Edge(v, 0)
    ensures Ends(g, dis, strategy)
  {
    SolvedDefers(g, dis, win, str);
    hide Benign, Drawn, Run, Bound, Ends, PartialSolution, AttractorClosed;
    assert Tame(g, dis);
    TameFinishes(g, dis, strategy, 2 * Bound(g));
    EndsAt(g, dis, strategy, 2 * Bound(g));
  }
}
