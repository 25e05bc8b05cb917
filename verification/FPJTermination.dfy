/** Why fixpoint iteration with justifications terminates: the measure that every round decreases unless the disabled
    vertex 0 disturbs it, a bound on the turns where that vertex is never evaluated, and exactly which inputs those are. */
module FPJTermination {
  import opened ParityGames
  import opened FixpointJustification
  import opened FPJInvariant

  // ---------------------------------------------------------------------------------------------------------
  // The measure
  // ---------------------------------------------------------------------------------------------------------

  function Pow2(k: nat): nat {
    if k == 0 then 1 else 2 * Pow2(k - 1)
  }

  /** The vertices that are no distraction, as a binary number with the highest vertex most significant. */
  ghost function Weight(d: seq<bool>): (w: nat)
    ensures w < Pow2(|d|)
  {
    if d == [] then 0
    else Weight(d[..|d| - 1]) + (if d[|d| - 1] then 0 else Pow2(|d| - 1))
  }

  /** A new distraction outweighs all the distractions below it. */
  lemma {:induction false} WeightDrops(d: seq<bool>, d': seq<bool>, f: nat)
    requires |d| == |d'| && f < |d| && !d[f] && d'[f]
    requires forall v :: f < v < |d| && d[v] ==> d'[v]
    ensures Weight(d') < Weight(d)
  {
    var last := |d| - 1;
    if f < last {
      WeightDrops(d[..last], d'[..last], f);
    }
  }

  ghost function Measure(g: Game, s: State): (m: nat)
    requires Sized(g, s)
    ensures m >= 1
  {
    Weight(s.distraction) * (g.Size() + 2) + (g.Size() + 1 - s.i)
  }

  ghost function Bound(g: Game): nat {
    Pow2(g.Size()) * (g.Size() + 2)
  }

  // ---------------------------------------------------------------------------------------------------------
  // Runs that touch enabled vertices only
  // ---------------------------------------------------------------------------------------------------------

  ghost predicate Blank(a: seq<bool>) {
    forall v :: 0 <= v < |a| ==> !a[v]
  }

  /** Vertex 0 is enabled, or the first pass over the first block finds no distraction. */
  ghost predicate Benign(g: Game, dis: seq<bool>)
    requires Instance(g, dis)
  {
    !dis[0] || forall v :: v in Dom(dis) && v < NextOther(g, dis, 0, g.Parity(0)) ==>
      OneStep(g, dis, AllFalse(g.Size()), v) == g.Parity(0)
  }

  /** Only enabled vertices are justified, distracted or queued, and a block starts at an enabled vertex
      once anything at all has been found. */
  ghost predicate Clean(g: Game, dis: seq<bool>, s: State)
    requires Sized(g, s) && |dis| == g.Size()
  {
    && (forall v :: 0 <= v < g.Size() && (s.justified[v] || s.distraction[v]) ==> !dis[v])
    && (forall k :: 0 <= k < |s.q| ==> !dis[s.q[k]])
    && (dis[s.blockstart] ==> s.blockstart == 0 && s.q == [] && Blank(s.justified) && Blank(s.distraction))
  }

  /** The vertices of the current value of the block that may rest on the block. */
  ghost function Affected(g: Game, dis: seq<bool>, s: State, b: seq<int>): set<nat>
    requires Sized(g, s) && |dis| == |b| == g.Size()
  {
    set w | w in Dom(dis) && Value(g, s.distraction, w) == s.curParity && b[w] <= NextOther(g, dis, s.blockstart, s.curParity)
  }

  lemma AffectedSupports(g: Game, dis: seq<bool>, s: State, b: seq<int>, v: nat, w: nat)
    requires Core(g, dis, s) && Labels(g, dis, s, b)
    requires v in Dom(dis) && (s.justified[v] || v in s.q) && w in Affected(g, dis, s, b) && Supports(g, s.strategy, v, w)
    ensures v in Affected(g, dis, s, b) && s.justified[v]
  {
    if v in s.q {
      FlippedVertex(g, dis, s, v);
    } else {
      assert v in Just(g, dis, s) && Locally(g, dis, s, v);
    }
  }

  lemma QueueAffected(g: Game, dis: seq<bool>, s: State, b: seq<int>, v: nat)
    requires Core(g, dis, s) && Labels(g, dis, s, b) && v in Dom(dis) && v in s.q
    ensures v in Affected(g, dis, s, b)
  {
    FlippedVertex(g, dis, s, v);
    BlockEndFrom(g, dis, s.blockstart, s.curParity, v);
  }

  ghost function Resettable(g: Game, dis: seq<bool>, s: State, b: seq<int>): set<nat>
    requires Sized(g, s) && |dis| == |b| == g.Size()
  {
    set w | w in Affected(g, dis, s, b) && s.justified[w]
  }

  ghost predicate GoneWithin(before: seq<bool>, after: seq<bool>, a: set<nat>) {
    forall v: nat :: Gone(before, after, v) ==> v in a
  }

  // Once vertex 0 has been evaluated although it is disabled, it takes part in the resets. It is vertex 0 that a
  // restart evaluates, whatever lies at the beginning of a later block is enabled.

  /** Vertex 0 has no enabled successor. */
  ghost predicate Stranded(g: Game, dis: seq<bool>)
    requires Instance(g, dis)
  {
    forall w: nat :: w in Dom(dis) ==> !g.Edge(0, w)
  }

  /** A distraction at vertex 0 rests on itself. */
  ghost predicate SelfResetting(g: Game)
    requires g.Valid() && g.Size() > 0
  {
    g.Edge(0, 0) && g.owner[0] == g.Parity(0)
  }

  /** Vertex 0 was queued or justified for a reason like any other vertex. */
  ghost predicate Reasonable(g: Game, dis: seq<bool>, s: State)
    requires Instance(g, dis) && Sized(g, s)
  {
    if s.strategy[0] == -1 then g.owner[0] == g.Parity(0)
    else s.strategy[0] >= 0 && s.strategy[0] in Dom(dis) && g.owner[0] == 1 - g.Parity(0)
  }

  /** While vertex 0 counts as a distraction or is about to, what it rests on has the value that it turns to. */
  ghost predicate Grounded(g: Game, dis: seq<bool>, s: State)
    requires Instance(g, dis) && Sized(g, s)
  {
    forall w :: w in Dom(dis) && Supports(g, s.strategy, 0, w) ==> Value(g, s.distraction, w) == 1 - g.Parity(0)
  }

  ghost predicate Kept(g: Game, dis: seq<bool>, s: State)
    requires Instance(g, dis) && Sized(g, s)
  {
    && (forall v: nat :: v < g.Size() && s.distraction[v] ==> s.justified[v])
    && (dis[0] && (0 in s.q || s.justified[0]) ==> Reasonable(g, dis, s) && Grounded(g, dis, s))
  }

  /** If vertex 0 is disabled, it is not about to flip and rests on nothing. */
  ghost predicate Harmless(g: Game, dis: seq<bool>, s: State)
    requires Instance(g, dis) && Sized(g, s)
  {
    dis[0] ==> 0 !in s.q && (s.justified[0] ==> Stranded(g, dis))
  }

  lemma CleanHarmless(g: Game, dis: seq<bool>, s: State)
    requires Inv(g, dis, s) && Clean(g, dis, s)
    ensures Kept(g, dis, s) && Harmless(g, dis, s)
  {
    forall v: nat | v < g.Size() && s.distraction[v] ensures s.justified[v] { assert v in Dom(dis); }
  }

  lemma HarmlessSupports(g: Game, dis: seq<bool>, s: State, b: seq<int>, v: nat, w: nat)
    requires Core(g, dis, s) && Labels(g, dis, s, b) && Harmless(g, dis, s)
    requires v < g.Size() && (s.justified[v] || v in s.q) && Supports(g, s.strategy, v, w) && w in Affected(g, dis, s, b)
    ensures v in Resettable(g, dis, s, b)
  {
    assert v == 0 || v in Dom(dis);
    if v in Dom(dis) { AffectedSupports(g, dis, s, b, v, w); }
  }

  /** A harmless flip resets only justified vertices that rested on the block: no vertex of a higher block, and none that
      was just flipped. */
  lemma FlipResets(g: Game, dis: seq<bool>, s: State, b: seq<int>)
    requires Sized(g, s) && |dis| == |b| == g.Size() > 0
    requires Core(g, dis, s) && Labels(g, dis, s, b) && Harmless(g, dis, s)
    ensures GoneWithin(Marked(g, s).justified, Propagate(g, Marked(g, s)).justified, Resettable(g, dis, s, b))
  {
    var m := Marked(g, s);
    var top, low := Affected(g, dis, s, b), Resettable(g, dis, s, b);
    forall v | v in s.q ensures v in top { QueueAffected(g, dis, s, b, v); }
    forall v, w | 0 <= v < g.Size() && m.justified[v] && w in top && Supports(g, s.strategy, v, w) ensures v in low {
      HarmlessSupports(g, dis, s, b, v, w);
    }
    PropagateWithin(g, m, top, low);
  }

  lemma FlipLoses(g: Game, dis: seq<bool>, s: State, t: State, b: seq<int>)
    requires Sized(g, s) && |dis| == |b| == g.Size() > 0 && t == EndBlock(g, dis, s)
    requires Core(g, dis, s) && Labels(g, dis, s, b) && Harmless(g, dis, s) && s.q != []
    ensures Flipped(g, s, t)
    ensures forall v: nat :: Lost(s, t, v) ==> v in Resettable(g, dis, s, b)
  {
    assert s.blockstart <= s.i by { assert Scanning(g, dis, s); }
    hide Winning, Labels, Affected, Resettable, Scanning, Propagate, Harmless;
    FlipResets(g, dis, s, b);
    EndBlockFlips(g, dis, s);
    assert forall v: nat :: Lost(s, t, v) ==> Gone(Marked(g, s).justified, t.justified, v);
  }

  /** Vertices of the block and above keep their distractions, and a flipped vertex is a new one. */
  lemma FlipWeight(g: Game, dis: seq<bool>, s: State)
    requires Inv(g, dis, s) && Harmless(g, dis, s) && s.q != []
    ensures Weight(EndBlock(g, dis, s).distraction) < Weight(s.distraction)
    ensures EndBlock(g, dis, s).i <= s.blockstart <= s.i
  {
    hide EndBlock, CyclesWon, Evaluated, Locally, NextOther, Supports, Weight;
    var b :| Labels(g, dis, s, b);
    var t := EndBlock(g, dis, s);
    FlipLoses(g, dis, s, t, b);
    var f := s.q[0];
    assert f in s.q && f in Dom(dis);
    FlippedVertex(g, dis, s, f);
    forall v | f < v < g.Size() && s.distraction[v] ensures t.distraction[v] {
      FlipKeepsAbove(g, dis, s, b, v);
    }
    WeightDrops(s.distraction, t.distraction, f);
  }

  /** A flip of a clean state leads to a clean state. */
  lemma FlipClean(g: Game, dis: seq<bool>, s: State)
    requires Inv(g, dis, s) && Clean(g, dis, s) && s.q != []
    ensures !dis[EndBlock(g, dis, s).i]
    ensures Clean(g, dis, NextBlock(g, EndBlock(g, dis, s)))
  {
    hide Winning, Labels, EndBlock;
    assert s.blockstart <= s.i by { assert Scanning(g, dis, s); }
    EndBlockFlips(g, dis, s);
  }

  lemma FlipKeepsAbove(g: Game, dis: seq<bool>, s: State, b: seq<int>, v: nat)
    requires Core(g, dis, s) && Labels(g, dis, s, b) && s.blockstart <= v < g.Size() && s.distraction[v]
    ensures v !in Resettable(g, dis, s, b)
  {
    if v in Dom(dis) { BlockEndFrom(g, dis, s.blockstart, s.curParity, v); }
  }

  // ---------------------------------------------------------------------------------------------------------
  // Every turn decreases the measure
  // ---------------------------------------------------------------------------------------------------------

  /** This turn of the loop evaluates a disabled vertex. */
  ghost predicate EvaluatesDisabled(g: Game, dis: seq<bool>, s: State)
    requires Sized(g, s) && |dis| == g.Size()
  {
    && AtBlockEnd(g, dis, s)
    && var t := EndBlock(g, dis, s);
       t.i < g.Size() && dis[t.i] && !t.justified[t.i]
  }

  lemma EvaluateClean(g: Game, dis: seq<bool>, s: State)
    requires Instance(g, dis) && Sized(g, s) && Clean(g, dis, s) && Benign(g, dis)
    requires s.i < NextOther(g, dis, s.blockstart, s.curParity) && !dis[s.i] && s.curParity == g.Parity(s.blockstart)
    ensures Clean(g, dis, Evaluate(g, dis, s))
    ensures Measure(g, Evaluate(g, dis, s)) == Measure(g, s) - 1
  {
    hide OneStep, FirstGood;
    if dis[s.blockstart] && !s.justified[s.i] {
      assert s.distraction == AllFalse(g.Size()) && s.i in Dom(dis);
    }
  }

  lemma EndBlockClean(g: Game, dis: seq<bool>, s: State)
    requires Sized(g, s) && |dis| == g.Size()
    requires Inv(g, dis, s) && Clean(g, dis, s) && AtBlockEnd(g, dis, s) && EndBlock(g, dis, s).i < g.Size()
    ensures var t := NextBlock(g, EndBlock(g, dis, s)); Clean(g, dis, t) && !dis[t.i]
    ensures Measure(g, NextBlock(g, EndBlock(g, dis, s))) <= Measure(g, s)
  {
    hide Inv, Clean, Propagate, Marked;
    var t := NextBlock(g, EndBlock(g, dis, s));
    if s.q != [] {
      hide EndBlock;
      CleanHarmless(g, dis, s);
      FlipWeight(g, dis, s);
      FlipClean(g, dis, s);
      WeightStep(Weight(t.distraction), Weight(s.distraction), g.Size() + 2);
    } else {
      SettleClean(g, dis, s);
    }
  }

  lemma SettleClean(g: Game, dis: seq<bool>, s: State)
    requires Sized(g, s) && |dis| == g.Size() && s.i < g.Size()
    requires Clean(g, dis, s) && AtBlockEnd(g, dis, s) && s.q == []
    ensures Clean(g, dis, NextBlock(g, JustifyBlock(g, dis, s)))
  {
  }

  lemma WeightStep(a: nat, b: nat, k: nat)
    requires a < b
    ensures a * k + k <= b * k
  {
    assert (a + 1) * k <= b * k;
  }

  /** Every turn of a clean run stays clean, evaluates enabled vertices only and decreases the measure. */
  lemma StepClean(g: Game, dis: seq<bool>, s: State)
    requires Sized(g, s) && |dis| == g.Size()
    requires Inv(g, dis, s) && Clean(g, dis, s) && Benign(g, dis)
    ensures !EvaluatesDisabled(g, dis, s)
    ensures Step(g, dis, s).Running? ==>
      var t := Step(g, dis, s).s; Clean(g, dis, t) && Measure(g, t) < Measure(g, s)
  {
    hide Clean, Measure, Benign, EndBlock, Evaluate, Winning, Labels, Scanning;
    if s.i < g.Size() && dis[s.i] {
      SkipClean(g, dis, s);
    } else if BlockEnded(g, s) {
      var t := EndBlock(g, dis, s);
      if t.i < g.Size() {
        EndBlockInv(g, dis, s);
        EndBlockClean(g, dis, s);
        InsideBlock(g, dis, NextBlock(g, t));
        EvaluateClean(g, dis, NextBlock(g, t));
      }
    } else {
      InsideBlock(g, dis, s);
      assert s.curParity == g.Parity(s.blockstart) by { ScanningParity(g, dis, s); }
      EvaluateClean(g, dis, s);
    }
  }

  lemma ScanningParity(g: Game, dis: seq<bool>, s: State)
    requires Sized(g, s) && |dis| == g.Size() && Scanning(g, dis, s)
    ensures s.curParity == g.Parity(s.blockstart)
  {
  }

  lemma SkipClean(g: Game, dis: seq<bool>, s: State)
    requires Sized(g, s) && |dis| == g.Size() && Clean(g, dis, s) && s.i < g.Size()
    ensures var t := s.(i := s.i + 1); Clean(g, dis, t) && Measure(g, t) < Measure(g, s)
  {
  }

  /** Enough turns lead out of the loop. */
  lemma {:induction false} RunFinishes(g: Game, dis: seq<bool>, s: State, budget: nat)
    requires Sized(g, s) && |dis| == g.Size()
    requires Inv(g, dis, s) && Clean(g, dis, s) && Benign(g, dis) && Measure(g, s) < budget
    ensures Run(g, dis, s, budget).Finished?
    decreases budget
  {
    hide Inv, Clean, Benign, Step, Sized;
    StepClean(g, dis, s);
    StepInv(g, dis, s);
    if Step(g, dis, s).Running? {
      RunFinishes(g, dis, Step(g, dis, s).s, budget - 1);
    }
  }

  lemma InitialClean(g: Game, dis: seq<bool>, strategy: seq<int>)
    requires Instance(g, dis) && |strategy| == g.Size()
    ensures Sized(g, Initial(g, strategy)) && Clean(g, dis, Initial(g, strategy))
    ensures Measure(g, Initial(g, strategy)) < Bound(g)
  {
    var s := Initial(g, strategy);
    WeightStep(Weight(s.distraction), Pow2(g.Size()), g.Size() + 2);
  }

  /** Total correctness: on every benign input the loop ends within the bound, with a correct solution. */
  lemma Terminates(g: Game, dis: seq<bool>, strategy: seq<int>, budget: nat)
    requires Instance(g, dis) && |strategy| == g.Size()
    requires Benign(g, dis) && budget >= Bound(g)
    ensures var s := Initial(g, strategy);
      && Sized(g, s)
      && Run(g, dis, s, budget).Finished?
      && Solves(g, dis, Run(g, dis, s, budget).s)
  {
    hide Clean, Measure, Bound, Inv, Run, Solves, Benign;
    InitialInv(g, dis, strategy);
    InitialClean(g, dis, strategy);
    RunFinishes(g, dis, Initial(g, strategy), budget);
    RunCorrect(g, dis, Initial(g, strategy), budget);
  }

  // ---------------------------------------------------------------------------------------------------------
  // Exactly when a disabled vertex is evaluated
  // ---------------------------------------------------------------------------------------------------------

  lemma {:induction false} RunNext(g: Game, dis: seq<bool>, s: State, k: nat)
    requires Sized(g, s) && |dis| == g.Size()
    ensures Run(g, dis, s, k).Running? ==> Run(g, dis, s, k + 1) == Step(g, dis, Run(g, dis, s, k).s)
    decreases k
  {
    hide Step, Sized;
    if k > 0 && Step(g, dis, s).Running? {
      RunNext(g, dis, Step(g, dis, s).s, k - 1);
    }
  }

  lemma {:induction false} RunClean(g: Game, dis: seq<bool>, s: State, k: nat)
    requires Sized(g, s) && |dis| == g.Size()
    requires Inv(g, dis, s) && Clean(g, dis, s) && Benign(g, dis)
    ensures var o := Run(g, dis, s, k); o.Running? ==> Inv(g, dis, o.s) && Clean(g, dis, o.s)
    decreases k
  {
    hide Inv, Clean, Benign, Step, Sized;
    if k > 0 {
      StepClean(g, dis, s);
      StepInv(g, dis, s);
      if Step(g, dis, s).Running? { RunClean(g, dis, Step(g, dis, s).s, k - 1); }
    }
  }

  /** The first pass over the first block: nothing is justified yet and the queue collects the distractions. */
  ghost predicate FirstPass(g: Game, dis: seq<bool>, s: State, k: nat)
    requires Instance(g, dis)
  {
    && Sized(g, s) && s.i == k && s.blockstart == 0 && s.curParity == g.Parity(0)
    && s.justified == AllFalse(g.Size()) && s.distraction == AllFalse(g.Size())
    && forall v :: v in s.q <==> v in Dom(dis) && v < k && OneStep(g, dis, AllFalse(g.Size()), v) != g.Parity(0)
  }

  lemma FirstPassStep(g: Game, dis: seq<bool>, s: State, k: nat)
    requires Instance(g, dis) && FirstPass(g, dis, s, k) && k < NextOther(g, dis, 0, g.Parity(0))
    ensures Step(g, dis, s).Running? && FirstPass(g, dis, Step(g, dis, s).s, k + 1)
  {
    hide OneStep, FirstGood;
  }

  lemma {:induction false} RunFirstPass(g: Game, dis: seq<bool>, strategy: seq<int>, k: nat)
    requires Instance(g, dis) && |strategy| == g.Size() && k <= NextOther(g, dis, 0, g.Parity(0))
    ensures Sized(g, Initial(g, strategy))
    ensures var o := Run(g, dis, Initial(g, strategy), k); o.Running? && FirstPass(g, dis, o.s, k)
  {
    if k == 0 {
      InitialFirst(g, dis, strategy);
    } else {
      hide Step, FirstPass, Initial, NextOther;
      RunFirstPass(g, dis, strategy, k - 1);
      FirstPassStep(g, dis, Run(g, dis, Initial(g, strategy), k - 1).s, k - 1);
      RunNext(g, dis, Initial(g, strategy), k - 1);
    }
  }

  lemma InitialFirst(g: Game, dis: seq<bool>, strategy: seq<int>)
    requires Instance(g, dis) && |strategy| == g.Size()
    ensures Sized(g, Initial(g, strategy)) && FirstPass(g, dis, Initial(g, strategy), 0)
  {
  }

  lemma FirstPassRestarts(g: Game, dis: seq<bool>, s: State)
    requires Instance(g, dis) && dis[0]
    requires FirstPass(g, dis, s, NextOther(g, dis, 0, g.Parity(0))) && s.q != []
    ensures EvaluatesDisabled(g, dis, s)
  {
    hide Propagate;
    EndBlockFlips(g, dis, s);
  }

  ghost predicate NeverEvaluatesDisabled(g: Game, dis: seq<bool>, strategy: seq<int>)
    requires Instance(g, dis) && |strategy| == g.Size()
  {
    var s := Initial(g, strategy);
    forall k: nat :: Run(g, dis, s, k).Running? ==> !EvaluatesDisabled(g, dis, Run(g, dis, s, k).s)
  }

  /** The loop stays with enabled vertices if and only if the input is benign: the restart of a first block that
      begins with a disabled vertex is the one place where the test for disabled vertices is skipped. */
  lemma NeverEvaluatesDisabledIffBenign(g: Game, dis: seq<bool>, strategy: seq<int>)
    requires Instance(g, dis) && |strategy| == g.Size()
    ensures NeverEvaluatesDisabled(g, dis, strategy) <==> Benign(g, dis)
  {
    var s := Initial(g, strategy);
    if Benign(g, dis) {
      hide Clean, Inv, Benign, EvaluatesDisabled, Step, Run;
      InitialInv(g, dis, strategy);
      InitialClean(g, dis, strategy);
      forall k: nat | Run(g, dis, s, k).Running? ensures !EvaluatesDisabled(g, dis, Run(g, dis, s, k).s) {
        RunClean(g, dis, s, k);
        StepClean(g, dis, Run(g, dis, s, k).s);
      }
    } else {
      hide EvaluatesDisabled, Run;
      var e := NextOther(g, dis, 0, g.Parity(0));
      RunFirstPass(g, dis, strategy, e);
      FirstPassRestarts(g, dis, Run(g, dis, s, e).s);
    }
  }
}
