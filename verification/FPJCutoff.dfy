/** A bound that decides whether fixpoint iteration with justifications ends: the loop has finitely many states, so a run
    that is longer repeats one and goes on forever. */
module FPJCutoff {
  import opened ParityGames
  import opened FixpointJustification
  import opened FPJInvariant

  // ---------------------------------------------------------------------------------------------------------
  // Numbers for sequences of digits
  // ---------------------------------------------------------------------------------------------------------

  function Power(m: nat, k: nat): (r: nat)
    ensures m > 0 ==> r > 0
  {
    if k == 0 then 1 else Product(m, Power(m, k - 1))
  }

  function Product(a: nat, b: nat): (r: nat)
    ensures r == a * b
    ensures a > 0 && b > 0 ==> r > 0
  {
    assert a > 0 && b > 0 ==> a * b > 0;
    a * b
  }

  ghost predicate Digits(d: seq<nat>, m: nat) {
    forall k :: 0 <= k < |d| ==> d[k] < m
  }

  function Code(d: seq<nat>, m: nat): nat {
    if d == [] then 0 else d[0] + Product(m, Code(d[1..], m))
  }

  lemma CodeRoom(x: nat, m: nat, a: nat, b: nat)
    requires x < m && a < b
    ensures x + Product(m, a) < Product(m, b)
  {
    assert m * b >= m * (a + 1) == m * a + m;
  }

  lemma CodeStep(x: nat, y: nat, m: nat, a: nat, b: nat)
    requires x < m && y < m && x + Product(m, a) == y + Product(m, b)
    ensures x == y && a == b
  {
    if a < b {
      CodeRoom(x, m, a, b);
    } else if b < a {
      CodeRoom(y, m, b, a);
    }
  }

  lemma {:induction false} CodeInjective(d: seq<nat>, e: seq<nat>, m: nat)
    requires |d| == |e| && Digits(d, m) && Digits(e, m) && Code(d, m) == Code(e, m)
    ensures d == e
    decreases |d|
  {
    if d != [] {
      CodeStep(d[0], e[0], m, Code(d[1..], m), Code(e[1..], m));
      CodeInjective(d[1..], e[1..], m);
      assert d == [d[0]] + d[1..] && e == [e[0]] + e[1..];
    }
  }

  lemma {:induction false} CodeBound(d: seq<nat>, m: nat)
    requires Digits(d, m) && m > 0
    ensures Code(d, m) < Power(m, |d|)
    decreases |d|
  {
    if d != [] {
      CodeBound(d[1..], m);
      CodeRoom(d[0], m, Code(d[1..], m), Power(m, |d| - 1));
    }
  }

  // ---------------------------------------------------------------------------------------------------------
  // Numbers for states
  // ---------------------------------------------------------------------------------------------------------

  /** A strategy is a choice among the vertices, or none, or still what the array held at the start. */
  function Choice(n: nat, x: int): nat {
    if -1 <= x < n then x + 1 else n + 1
  }

  function Bit(b: bool): nat { if b then 1 else 0 }

  /** All of a state but the round counter. */
  ghost function Digitize(n: nat, s: State): (d: seq<nat>)
    requires |s.strategy| == |s.justified| == |s.distraction| == n
    ensures |d| == 3 + 4 * n
  {
    [s.i, s.blockstart, s.curParity]
    + seq(n, v requires 0 <= v < n => Choice(n, s.strategy[v]))
    + seq(n, v requires 0 <= v < n => Bit(s.justified[v]))
    + seq(n, v requires 0 <= v < n => Bit(s.distraction[v]))
    + seq(n, v requires 0 <= v < n => Bit(v in s.q))
  }

  ghost predicate Increasing(q: seq<nat>) {
    forall j, k :: 0 <= j < k < |q| ==> q[j] < q[k]
  }

  /** What every state of a run from the strategies `str` satisfies. */
  ghost predicate Regular(g: Game, str: seq<int>, s: State) {
    && Sized(g, s) && |str| == g.Size()
    && Increasing(s.q)
    && forall v :: 0 <= v < g.Size() ==> s.strategy[v] == str[v] || -1 <= s.strategy[v] < g.Size()
  }

  lemma DigitsFit(g: Game, str: seq<int>, s: State)
    requires Regular(g, str, s) && g.Size() > 0
    ensures Digits(Digitize(g.Size(), s), g.Size() + 2)
  {
  }

  ghost function Members(q: seq<nat>): set<nat> {
    set v | v in q
  }

  lemma LastIsGreatest(q: seq<nat>)
    requires Increasing(q)
    ensures q == [] ==> Members(q) == {}
    ensures q != [] ==>
      && var r, x := q[..|q| - 1], q[|q| - 1];
      && q == r + [x] && Increasing(r) && Members(r) == Members(q) - {x}
      && x in Members(q) && forall v :: v in Members(q) ==> v <= x
  {
    if q != [] {
      var r, x := q[..|q| - 1], q[|q| - 1];
      assert q == r + [x];
      assert forall v :: v in q <==> v in r || v == x;
    }
  }

  lemma {:induction false} IncreasingUnique(p: seq<nat>, q: seq<nat>)
    requires Increasing(p) && Increasing(q) && Members(p) == Members(q)
    ensures p == q
    decreases |p|
  {
    hide Increasing, Members;
    LastIsGreatest(p);
    LastIsGreatest(q);
    if p != [] {
      IncreasingUnique(p[..|p| - 1], q[..|q| - 1]);
    }
  }

  /** The same state, whatever the round counter. */
  ghost predicate Alike(s: State, t: State) {
    t == s.(iterations := t.iterations)
  }

  lemma DigitsEqual(n: nat, s: State, t: State, v: nat)
    requires |s.strategy| == |s.justified| == |s.distraction| == n
    requires |t.strategy| == |t.justified| == |t.distraction| == n
    requires Digitize(n, s) == Digitize(n, t) && v < n
    ensures s.i == t.i && s.blockstart == t.blockstart && s.curParity == t.curParity
    ensures Choice(n, s.strategy[v]) == Choice(n, t.strategy[v]) && s.justified[v] == t.justified[v]
    ensures s.distraction[v] == t.distraction[v] && (v in s.q <==> v in t.q)
  {
    var d, e := Digitize(n, s), Digitize(n, t);
    assert d[0] == e[0] && d[1] == e[1] && d[2] == e[2];
    assert d[3 + v] == e[3 + v] && d[3 + n + v] == e[3 + n + v];
    assert d[3 + 2 * n + v] == e[3 + 2 * n + v] && d[3 + 3 * n + v] == e[3 + 3 * n + v];
  }

  /** States with the same number are alike. */
  lemma CodesAlike(g: Game, str: seq<int>, s: State, t: State)
    requires g.Size() > 0 && Regular(g, str, s) && Regular(g, str, t)
    requires Code(Digitize(g.Size(), s), g.Size() + 2) == Code(Digitize(g.Size(), t), g.Size() + 2)
    ensures Alike(s, t)
  {
    var n := g.Size();
    DigitsFit(g, str, s);
    DigitsFit(g, str, t);
    CodeInjective(Digitize(n, s), Digitize(n, t), n + 2);
    hide Digitize;
    forall v | 0 <= v < n
      ensures s.strategy[v] == t.strategy[v] && s.justified[v] == t.justified[v] && s.distraction[v] == t.distraction[v]
      ensures v in s.q <==> v in t.q
    {
      DigitsEqual(n, s, t, v);
    }
    DigitsEqual(n, s, t, 0);
    forall v ensures v in s.q <==> v in t.q { if v >= n { assert v !in s.q && v !in t.q; } }
    assert Members(s.q) == Members(t.q);
    IncreasingUnique(s.q, t.q);
    assert s.strategy == t.strategy && s.justified == t.justified && s.distraction == t.distraction;
  }

  // ---------------------------------------------------------------------------------------------------------
  // The round counter does not matter
  // ---------------------------------------------------------------------------------------------------------

  lemma {:induction false} ResetInsAlike(g: Game, s: State, t: State, v: nat, k: nat)
    requires Sized(g, s) && Sized(g, t) && Alike(s, t) && v < g.Size() && k <= |g.ins[v]|
    ensures Alike(ResetIns(g, s, v, k), ResetIns(g, t, v, k))
    decreases |g.ins[v]| - k
  {
    if k < |g.ins[v]| {
      var from := g.ins[v][k];
      if s.justified[from] && (s.strategy[from] == -1 || s.strategy[from] == v) {
        ResetInsAlike(g, Reset(s, from), Reset(t, from), v, k + 1);
      } else {
        ResetInsAlike(g, s, t, v, k + 1);
      }
    }
  }

  lemma {:induction false} PropagateAlike(g: Game, s: State, t: State)
    requires Sized(g, s) && Sized(g, t) && Alike(s, t)
    ensures Alike(Propagate(g, s), Propagate(g, t))
    decreases |s.q| + 2 * CountTrue(s.justified)
  {
    if s.q != [] {
      var v := s.q[|s.q| - 1];
      var r, u := s.(q := s.q[..|s.q| - 1]), t.(q := t.q[..|t.q| - 1]);
      ResetInsAlike(g, r, u, v, 0);
      PropagateAlike(g, ResetIns(g, r, v, 0), ResetIns(g, u, v, 0));
    }
  }

  lemma EndBlockAlike(g: Game, dis: seq<bool>, s: State, t: State)
    requires Sized(g, s) && Sized(g, t) && |dis| == g.Size() && Alike(s, t)
    ensures Alike(EndBlock(g, dis, s), EndBlock(g, dis, t))
  {
    hide Propagate;
    if s.q != [] { PropagateAlike(g, Marked(g, s), Marked(g, t)); }
  }

  lemma StepAlike(g: Game, dis: seq<bool>, s: State, t: State)
    requires Sized(g, s) && Sized(g, t) && |dis| == g.Size() && Alike(s, t)
    ensures Step(g, dis, s).Running? <==> Step(g, dis, t).Running?
    ensures Alike(Step(g, dis, s).s, Step(g, dis, t).s)
  {
    EndBlockAlike(g, dis, s, t);
    hide EndBlock, FirstGood, OneStep;
  }

  lemma {:induction false} RunAlike(g: Game, dis: seq<bool>, s: State, t: State, k: nat)
    requires Sized(g, s) && Sized(g, t) && |dis| == g.Size() && Alike(s, t)
    ensures Run(g, dis, s, k).Running? <==> Run(g, dis, t, k).Running?
    ensures Alike(Run(g, dis, s, k).s, Run(g, dis, t, k).s)
    decreases k
  {
    hide Step, Sized;
    if k > 0 {
      StepAlike(g, dis, s, t);
      if Step(g, dis, s).Running? { RunAlike(g, dis, Step(g, dis, s).s, Step(g, dis, t).s, k - 1); }
    }
  }

  // ---------------------------------------------------------------------------------------------------------
  // Long runs repeat themselves
  // ---------------------------------------------------------------------------------------------------------

  lemma {:induction false} RunSplit(g: Game, dis: seq<bool>, s: State, j: nat, k: nat)
    requires Sized(g, s) && |dis| == g.Size()
    ensures Run(g, dis, s, j).Running? ==> Run(g, dis, s, j + k) == Run(g, dis, Run(g, dis, s, j).s, k)
    ensures Run(g, dis, s, j).Finished? ==> Run(g, dis, s, j + k) == Run(g, dis, s, j)
    decreases j
  {
    hide Step, Sized;
    if j > 0 && Step(g, dis, s).Running? { RunSplit(g, dis, Step(g, dis, s).s, j - 1, k); }
  }

  lemma {:induction false} RunRegular(g: Game, dis: seq<bool>, str: seq<int>, s: State, k: nat)
    requires Sized(g, s) && |dis| == g.Size() && Inv(g, dis, s) && Regular(g, str, s)
    ensures var o := Run(g, dis, s, k); o.Running? ==> Regular(g, str, o.s)
    decreases k
  {
    hide Step, Sized, Inv, Regular;
    if k > 0 {
      StepInv(g, dis, s);
      if Step(g, dis, s).Running? {
        StepRegular(g, dis, str, s);
        RunRegular(g, dis, str, Step(g, dis, s).s, k - 1);
      }
    }
  }

  lemma StepRegular(g: Game, dis: seq<bool>, str: seq<int>, s: State)
    requires Sized(g, s) && |dis| == g.Size() && Inv(g, dis, s) && Regular(g, str, s)
    requires Step(g, dis, s).Running? && Inv(g, dis, Step(g, dis, s).s)
    ensures Regular(g, str, Step(g, dis, s).s)
  {
    var t := Step(g, dis, s).s;
    ChoicesKept(g, dis, s);
    hide Step;
    assert Scanning(g, dis, t);
  }

  lemma ChoicesKept(g: Game, dis: seq<bool>, s: State)
    requires Sized(g, s) && |dis| == g.Size()
    ensures forall v :: 0 <= v < g.Size() ==>
      Step(g, dis, s).s.strategy[v] == s.strategy[v] || -1 <= Step(g, dis, s).s.strategy[v] < g.Size()
  {
    hide FirstGood, Propagate, OneStep;
    var t := EndBlock(g, dis, s);
    assert t.strategy == s.strategy;
    hide EndBlock;
    if s.i < g.Size() { FirstGoodMeaning(g, dis, s.distraction, s.i, 0); }
    if t.i < g.Size() { FirstGoodMeaning(g, dis, t.distraction, t.i, 0); }
  }

  /** More turns than there are states. */
  ghost function Cutoff(g: Game): nat {
    Power(g.Size() + 2, 3 + 4 * g.Size())
  }

  /** The state after `k` turns. */
  ghost function StateAt(g: Game, dis: seq<bool>, strategy: seq<int>, k: nat): State
    requires Instance(g, dis) && |strategy| == g.Size()
  {
    Run(g, dis, Initial(g, strategy), k).s
  }

  lemma AtRegular(g: Game, dis: seq<bool>, strategy: seq<int>, k: nat)
    requires Instance(g, dis) && |strategy| == g.Size() && Run(g, dis, Initial(g, strategy), k).Running?
    ensures Regular(g, strategy, StateAt(g, dis, strategy, k))
  {
    InitialInv(g, dis, strategy);
    RunRegular(g, dis, strategy, Initial(g, strategy), k);
  }

  /** A run that has met two like states never ends. */
  lemma {:induction false} RepetitionRunsOn(g: Game, dis: seq<bool>, s: State, i: nat, j: nat, k: nat)
    requires Sized(g, s) && |dis| == g.Size() && i < j
    requires Run(g, dis, s, j).Running? && Run(g, dis, s, i).Running? && Alike(Run(g, dis, s, i).s, Run(g, dis, s, j).s)
    ensures Run(g, dis, s, k).Running?
    decreases k
  {
    hide Run, Step, Sized;
    if k <= j {
      RunSplit(g, dis, s, k, j - k);
    } else {
      RepetitionRunsOn(g, dis, s, i, j, k - (j - i));
      RunSplit(g, dis, s, i, k - j);
      RunSplit(g, dis, s, j, k - j);
      RunAlike(g, dis, Run(g, dis, s, i).s, Run(g, dis, s, j).s, k - j);
    }
  }

  ghost function StateCode(g: Game, dis: seq<bool>, strategy: seq<int>, k: nat): nat
    requires Instance(g, dis) && |strategy| == g.Size()
  {
    Code(Digitize(g.Size(), StateAt(g, dis, strategy, k)), g.Size() + 2)
  }

  lemma StateCodeBound(g: Game, dis: seq<bool>, strategy: seq<int>, k: nat)
    requires Instance(g, dis) && |strategy| == g.Size() && Run(g, dis, Initial(g, strategy), k).Running?
    ensures StateCode(g, dis, strategy, k) < Cutoff(g)
  {
    AtRegular(g, dis, strategy, k);
    hide StateAt, Digitize, Code, Power;
    DigitsFit(g, strategy, StateAt(g, dis, strategy, k));
    CodeBound(Digitize(g.Size(), StateAt(g, dis, strategy, k)), g.Size() + 2);
  }

  /** A run that is still going after that many turns has met two like states. */
  lemma MeetsAgain(g: Game, dis: seq<bool>, strategy: seq<int>, budget: nat) returns (i: nat, j: nat)
    requires Instance(g, dis) && |strategy| == g.Size() && budget >= Cutoff(g)
    requires Sized(g, Initial(g, strategy)) && Run(g, dis, Initial(g, strategy), budget).Running?
    ensures i < j <= budget && Run(g, dis, Initial(g, strategy), i).Running? && Run(g, dis, Initial(g, strategy), j).Running?
    ensures Alike(Run(g, dis, Initial(g, strategy), i).s, Run(g, dis, Initial(g, strategy), j).s)
  {
    hide Run, Cutoff, StateCode;
    var s := Initial(g, strategy);
    forall j: nat | j <= budget ensures Run(g, dis, s, j).Running? { RunSplit(g, dis, s, j, budget - j); }
    var codes := seq(budget + 1, j requires 0 <= j => StateCode(g, dis, strategy, j));
    forall j | 0 <= j < |codes| ensures codes[j] < Cutoff(g) { StateCodeBound(g, dis, strategy, j); }
    i, j := Repetition(codes, Cutoff(g));
    assert StateCode(g, dis, strategy, i) == StateCode(g, dis, strategy, j);
    SameCode(g, dis, strategy, i, j);
  }

  /** If the loop has not been left after that many turns, it never will be. */
  lemma CutoffDecides(g: Game, dis: seq<bool>, strategy: seq<int>, budget: nat, k: nat)
    requires Instance(g, dis) && |strategy| == g.Size() && budget >= Cutoff(g)
    requires Sized(g, Initial(g, strategy)) && Run(g, dis, Initial(g, strategy), budget).Running?
    ensures Run(g, dis, Initial(g, strategy), k).Running?
  {
    hide Run, Cutoff;
    var i, j := MeetsAgain(g, dis, strategy, budget);
    RepetitionRunsOn(g, dis, Initial(g, strategy), i, j, k);
  }

  /** After the repetition, every state has been met before. */
  lemma MetBefore(g: Game, dis: seq<bool>, s: State, i: nat, j: nat, k: nat)
    requires Sized(g, s) && |dis| == g.Size() && i < j <= k
    requires Run(g, dis, s, j).Running? && Run(g, dis, s, i).Running? && Alike(Run(g, dis, s, i).s, Run(g, dis, s, j).s)
    ensures Alike(Run(g, dis, s, k - (j - i)).s, Run(g, dis, s, k).s)
    ensures Run(g, dis, s, k - (j - i)).Running? <==> Run(g, dis, s, k).Running?
  {
    hide Run, Step, Sized, Alike;
    RunSplit(g, dis, s, i, k - j);
    RunSplit(g, dis, s, j, k - j);
    RunAlike(g, dis, Run(g, dis, s, i).s, Run(g, dis, s, j).s, k - j);
  }

  lemma SameCode(g: Game, dis: seq<bool>, strategy: seq<int>, i: nat, j: nat)
    requires Instance(g, dis) && |strategy| == g.Size()
    requires Run(g, dis, Initial(g, strategy), i).Running? && Run(g, dis, Initial(g, strategy), j).Running?
    requires StateCode(g, dis, strategy, i) == StateCode(g, dis, strategy, j)
    ensures Alike(Run(g, dis, Initial(g, strategy), i).s, Run(g, dis, Initial(g, strategy), j).s)
  {
    hide Run, Digitize, Code, Alike;
    AtRegular(g, dis, strategy, i);
    AtRegular(g, dis, strategy, j);
    CodesAlike(g, strategy, StateAt(g, dis, strategy, i), StateAt(g, dis, strategy, j));
  }
}
