/** The stack of fixpoint iteration with justifications: the source gives it one entry a vertex. That suffices as long as
    no propagation resets a vertex that has just been flipped, and twice as many entries always suffice. */
module FPJStack {
  import opened ParityGames
  import opened Solutions
  import opened FixpointJustification
  import opened FPJInvariant
  import opened FPJTermination
  import opened FPJRestarts
  import opened FPJCutoff

  // ---------------------------------------------------------------------------------------------------------
  // The entries that a run needs
  // ---------------------------------------------------------------------------------------------------------

  /** While the predecessors of `v` are reset, the stack never holds more than `c` entries. */
  ghost predicate ResetFits(g: Game, s: State, v: nat, k: nat, c: nat)
    requires Sized(g, s) && v < g.Size() && k <= |g.ins[v]|
    decreases |g.ins[v]| - k
  {
    && |s.q| <= c
    && (k < |g.ins[v]| ==>
          var from := g.ins[v][k];
          if s.justified[from] && (s.strategy[from] == -1 || s.strategy[from] == v)
          then ResetFits(g, Reset(s, from), v, k + 1, c)
          else ResetFits(g, s, v, k + 1, c))
  }

  /** At no moment of the propagation does the stack hold more than `c` entries. */
  ghost predicate StackFits(g: Game, s: State, c: nat)
    requires Sized(g, s)
    decreases |s.q| + 2 * CountTrue(s.justified)
  {
    && |s.q| <= c
    && (s.q != [] ==>
          var v, r := s.q[|s.q| - 1], s.(q := s.q[..|s.q| - 1]);
          ResetFits(g, r, v, 0, c) && StackFits(g, ResetIns(g, r, v, 0), c))
  }

  /** The next turn, too, gets by with `c` entries. */
  ghost predicate TurnFits(g: Game, dis: seq<bool>, s: State, c: nat)
    requires Sized(g, s) && |dis| == g.Size()
  {
    |s.q| <= c && (AtBlockEnd(g, dis, s) && s.q != [] ==> StackFits(g, Marked(g, s), c))
  }

  /** The next `k` turns never need more than `c` entries. */
  ghost predicate RunFits(g: Game, dis: seq<bool>, s: State, k: nat, c: nat)
    requires Sized(g, s) && |dis| == g.Size()
    decreases k
  {
    |s.q| <= c && (k > 0 ==>
      TurnFits(g, dis, s, c) && (Step(g, dis, s).Running? ==> RunFits(g, dis, Step(g, dis, s).s, k - 1, c)))
  }

  /** In particular the turn after any smaller number of turns. */
  lemma {:induction false} RunFitsAt(g: Game, dis: seq<bool>, s: State, j: nat, k: nat, c: nat)
    requires Sized(g, s) && |dis| == g.Size() && RunFits(g, dis, s, k, c) && j < k && Run(g, dis, s, j).Running?
    ensures TurnFits(g, dis, Run(g, dis, s, j).s, c)
    decreases j
  {
    hide Step, Sized, TurnFits;
    if j > 0 { RunFitsAt(g, dis, Step(g, dis, s).s, j - 1, k - 1, c); }
  }

  // ---------------------------------------------------------------------------------------------------------
  // One entry a vertex
  // ---------------------------------------------------------------------------------------------------------

  ghost predicate NoRepeat(q: seq<nat>) {
    forall j, k :: 0 <= j < k < |q| ==> q[j] != q[k]
  }

  lemma NoRepeatFits(q: seq<nat>, n: nat)
    requires NoRepeat(q) && forall k :: 0 <= k < |q| ==> q[k] < n
    ensures |q| <= n
  {
    if |q| > n {
      var j, k := Repetition(q, n);
      assert false;
    }
  }

  /** What the stack holds is pairwise different, and justified only if it was flipped and not yet popped. */
  ghost predicate Stacked(s: State, flipped: set<nat>) {
    NoRepeat(s.q) && forall k :: 0 <= k < |s.q| && s.q[k] < |s.justified| && s.justified[s.q[k]] ==> s.q[k] in flipped
  }

  ghost predicate RestsWithin(g: Game, s: State, top: set<nat>, low: set<nat>)
    requires Sized(g, s)
  {
    forall v, w :: 0 <= v < g.Size() && s.justified[v] && w in top && Supports(g, s.strategy, v, w) ==> v in low
  }

  lemma {:induction false} ResetStays(g: Game, s: State, v: nat, k: nat, top: set<nat>, low: set<nat>, flipped: set<nat>)
    requires Sized(g, s) && v < g.Size() && k <= |g.ins[v]| && v in top
    requires low <= top && low !! flipped && RestsWithin(g, s, top, low) && Stacked(s, flipped)
    ensures ResetFits(g, s, v, k, g.Size())
    ensures var t := ResetIns(g, s, v, k);
      && RestsWithin(g, t, top, low) && Stacked(t, flipped) && s.q <= t.q
      && forall x :: x in t.q ==> x in s.q || x in low
    decreases |g.ins[v]| - k
  {
    NoRepeatFits(s.q, g.Size());
    if k < |g.ins[v]| {
      var from := g.ins[v][k];
      InsOuts(g, from, v);
      if s.justified[from] && (s.strategy[from] == -1 || s.strategy[from] == v) {
        assert from in low;
        ResetStays(g, Reset(s, from), v, k + 1, top, low, flipped);
      } else {
        ResetStays(g, s, v, k + 1, top, low, flipped);
      }
    }
  }

  lemma {:induction false} PropagateFits(g: Game, s: State, top: set<nat>, low: set<nat>, flipped: set<nat>)
    requires Sized(g, s)
    requires low <= top && low !! flipped && RestsWithin(g, s, top, low) && Stacked(s, flipped)
    requires forall x :: x in s.q ==> x in top
    ensures StackFits(g, s, g.Size())
    decreases |s.q| + 2 * CountTrue(s.justified)
  {
    NoRepeatFits(s.q, g.Size());
    if s.q != [] {
      var v, r := s.q[|s.q| - 1], s.(q := s.q[..|s.q| - 1]);
      assert v in top;
      ResetStays(g, r, v, 0, top, low, flipped);
      PropagateFits(g, ResetIns(g, r, v, 0), top, low, flipped);
    }
  }

  /** Whatever popping vertex 0 resets does no harm if vertex 0 lies at the bottom of the stack. */
  lemma {:induction false} BottomFits(g: Game, s: State, top: set<nat>, low: set<nat>, flipped: set<nat>)
    requires Sized(g, s) && s.q != [] && s.q[0] == 0 && forall k :: 0 < k < |s.q| ==> s.q[k] in top
    requires low <= top && low !! flipped && RestsWithin(g, s, top, low) && Stacked(s, flipped)
    ensures StackFits(g, s, g.Size())
    decreases |s.q| + 2 * CountTrue(s.justified)
  {
    NoRepeatFits(s.q, g.Size());
    var v, r := s.q[|s.q| - 1], s.(q := s.q[..|s.q| - 1]);
    if |s.q| == 1 {
      var all := Vertices(g);
      ResetStays(g, r, 0, 0, all, all, {});
      PropagateFits(g, ResetIns(g, r, 0, 0), all, all, {});
    } else {
      ResetStays(g, r, v, 0, top, low, flipped);
      BottomAfter(g, r, ResetIns(g, r, v, 0), top, low);
      BottomFits(g, ResetIns(g, r, v, 0), top, low, flipped);
    }
  }

  lemma BottomAfter(g: Game, r: State, t: State, top: set<nat>, low: set<nat>)
    requires r.q != [] && r.q[0] == 0 && (forall k :: 0 < k < |r.q| ==> r.q[k] in top) && NoRepeat(t.q)
    requires low <= top && r.q <= t.q && forall x :: x in t.q ==> x in r.q || x in low
    ensures t.q[0] == 0 && forall k :: 0 < k < |t.q| ==> t.q[k] in top
  {
    forall k | 0 < k < |t.q| ensures t.q[k] in top {
      assert t.q[k] in t.q;
      assert t.q[k] != t.q[0] == 0;
    }
  }

  // ---------------------------------------------------------------------------------------------------------
  // One turn
  // ---------------------------------------------------------------------------------------------------------

  /** Every enabled vertex with a move to vertex 0 has the owner for whom that move is bad once vertex 0 counts as a
      distraction, and vertex 0 does not rest on itself. */
  ghost predicate Repelling(g: Game, dis: seq<bool>)
    requires Instance(g, dis)
  {
    !SelfResetting(g) && forall v: nat :: v in Dom(dis) && g.Edge(v, 0) ==> g.owner[v] == g.Parity(0)
  }

  /** Vertex 0 cannot be reset in a propagation that is not its own, or what is reset with it has not been flipped. */
  ghost predicate Secure(g: Game, dis: seq<bool>, s: State)
    requires Instance(g, dis) && Sized(g, s)
  {
    dis[0] && 0 !in s.q && s.justified[0] ==> Repelling(g, dis) || (!SelfResetting(g) && Stranded(g, dis))
  }

  /** What the block is about to lose: the vertices of its value, and vertex 0 if it may be among them. */
  ghost function Losing(g: Game, dis: seq<bool>, s: State): set<nat>
    requires Instance(g, dis) && Sized(g, s)
  {
    (set v | v in Dom(dis) && Value(g, s.distraction, v) == s.curParity)
    + if dis[0] && 0 !in s.q && Repelling(g, dis) && s.curParity != g.Parity(0) then {0} else {}
  }

  ghost function Losers(g: Game, dis: seq<bool>, s: State): set<nat>
    requires Instance(g, dis) && Sized(g, s)
  {
    set v | v in Losing(g, dis, s) && ((v == 0 && dis[0]) || s.justified[v])
  }

  lemma LosingRest(g: Game, dis: seq<bool>, s: State, v: nat, w: nat)
    requires Inv(g, dis, s) && Kept(g, dis, s) && Secure(g, dis, s) && s.q != []
    requires v < g.Size() && (s.justified[v] || v in s.q) && w in Losing(g, dis, s) && Supports(g, s.strategy, v, w)
    ensures v in Losers(g, dis, s)
  {
    hide Labels, CyclesWon, NextOther;
    assert v == 0 || v in Dom(dis);
    if v in Dom(dis) {
      if v in s.q { FlippedVertex(g, dis, s, v); } else { assert v in Just(g, dis, s) && Locally(g, dis, s, v); }
    }
  }

  lemma QueueLosing(g: Game, dis: seq<bool>, s: State, v: nat)
    requires Inv(g, dis, s) && v in s.q && v in Dom(dis)
    ensures v in Losing(g, dis, s) && v !in Losers(g, dis, s)
  {
    FlippedVertex(g, dis, s, v);
  }

  lemma MarkedRests(g: Game, dis: seq<bool>, s: State)
    requires Inv(g, dis, s) && Kept(g, dis, s) && Secure(g, dis, s) && s.q != []
    ensures RestsWithin(g, Marked(g, s), Losing(g, dis, s), Losers(g, dis, s))
    ensures Stacked(Marked(g, s), set v | v in s.q)
  {
    var m := Marked(g, s);
    hide Losing, Losers, Labels, Winning, Secure, Kept, Supports;
    forall v, w | 0 <= v < g.Size() && m.justified[v] && w in Losing(g, dis, s) && Supports(g, m.strategy, v, w)
      ensures v in Losers(g, dis, s)
    {
      LosingRest(g, dis, s, v, w);
    }
  }

  /** Then no propagation of this turn needs more entries than there are vertices. */
  lemma SecureFits(g: Game, dis: seq<bool>, s: State)
    requires Inv(g, dis, s) && Kept(g, dis, s) && Secure(g, dis, s)
    ensures TurnFits(g, dis, s, g.Size())
  {
    NoRepeatFits(s.q, g.Size());
    hide Labels, Winning, StackFits, Secure, Kept;
    if s.q != [] {
      MarkedRests(g, dis, s);
      forall v | v in s.q && v in Dom(dis) ensures v in Losing(g, dis, s) && v !in Losers(g, dis, s) { QueueLosing(g, dis, s, v); }
      var flipped := set v | v in s.q;
      assert Losers(g, dis, s) !! flipped;
      if dis[0] && 0 in s.q {
        BottomFits(g, Marked(g, s), Losing(g, dis, s), Losers(g, dis, s), flipped);
      } else {
        PropagateFits(g, Marked(g, s), Losing(g, dis, s), Losers(g, dis, s), flipped);
      }
    }
  }

  // ---------------------------------------------------------------------------------------------------------
  // Whole runs
  // ---------------------------------------------------------------------------------------------------------

  /** What a caller can check: vertex 0 is not entangled, or all its enabled predecessors lose by moving to it. */
  ghost predicate Contained(g: Game, dis: seq<bool>)
    requires Instance(g, dis)
  {
    !Entangled(g, dis) || Repelling(g, dis)
  }

  lemma {:induction false} CleanRunFits(g: Game, dis: seq<bool>, s: State, k: nat)
    requires Sized(g, s) && |dis| == g.Size() && Inv(g, dis, s) && Clean(g, dis, s) && Benign(g, dis)
    ensures RunFits(g, dis, s, k, g.Size())
    decreases k
  {
    hide Inv, Clean, Benign, Step, TurnFits;
    CleanSecure(g, dis, s);
    SecureFits(g, dis, s);
    TurnFitsNow(g, dis, s, g.Size());
    StepClean(g, dis, s);
    StepInv(g, dis, s);
    if k > 0 && Step(g, dis, s).Running? { CleanRunFits(g, dis, Step(g, dis, s).s, k - 1); }
  }

  lemma CleanSecure(g: Game, dis: seq<bool>, s: State)
    requires Inv(g, dis, s) && Clean(g, dis, s)
    ensures Kept(g, dis, s) && Secure(g, dis, s)
  {
    CleanHarmless(g, dis, s);
  }

  lemma TurnFitsNow(g: Game, dis: seq<bool>, s: State, c: nat)
    requires Sized(g, s) && |dis| == g.Size() && TurnFits(g, dis, s, c)
    ensures |s.q| <= c
  {
  }

  lemma UnmovedSecure(g: Game, dis: seq<bool>, d: seq<bool>, s: State)
    requires Instance(g, dis) && Sized(g, s) && |d| == g.Size() && Unmoved(g, dis, d, s)
    ensures Secure(g, dis, s)
  {
  }

  lemma CirclingSecure(g: Game, dis: seq<bool>, s: State)
    requires Instance(g, dis) && Sized(g, s) && Circling(g, dis, s)
    ensures Secure(g, dis, s)
  {
  }

  lemma {:induction false} UnmovedRunFits(g: Game, dis: seq<bool>, d: seq<bool>, s: State, k: nat)
    requires Instance(g, dis) && Sized(g, s) && |d| == g.Size() && Inv(g, dis, s) && Kept(g, dis, s) && Unmoved(g, dis, d, s)
    ensures RunFits(g, dis, s, k, g.Size())
    decreases k
  {
    hide Inv, Kept, Step, TurnFits, Unmoved, Secure;
    UnmovedSecure(g, dis, d, s);
    SecureFits(g, dis, s);
    TurnFitsNow(g, dis, s, g.Size());
    UnmovedStep(g, dis, d, s);
    StepKept(g, dis, s);
    StepInv(g, dis, s);
    if k > 0 && Step(g, dis, s).Running? { UnmovedRunFits(g, dis, d, Step(g, dis, s).s, k - 1); }
  }

  lemma {:induction false} SteadyRunFits(g: Game, dis: seq<bool>, s: State, k: nat)
    requires Sized(g, s) && |dis| == g.Size() && Inv(g, dis, s) && Kept(g, dis, s)
    requires Repelling(g, dis) || (!SelfResetting(g) && Stranded(g, dis))
    ensures RunFits(g, dis, s, k, g.Size())
    decreases k
  {
    hide Inv, Kept, Step, TurnFits, Repelling, Stranded, SelfResetting;
    SecureFits(g, dis, s);
    TurnFitsNow(g, dis, s, g.Size());
    StepKept(g, dis, s);
    StepInv(g, dis, s);
    if k > 0 && Step(g, dis, s).Running? { SteadyRunFits(g, dis, Step(g, dis, s).s, k - 1); }
  }

  lemma {:induction false} CirclingRunFits(g: Game, dis: seq<bool>, s: State, k: nat)
    requires Instance(g, dis) && Sized(g, s) && Inv(g, dis, s) && Kept(g, dis, s) && Circling(g, dis, s) && Trapped(g, dis)
    ensures RunFits(g, dis, s, k, g.Size())
    decreases k
  {
    hide Inv, Kept, Step, TurnFits, Trapped, Circling, Secure;
    CirclingSecure(g, dis, s);
    SecureFits(g, dis, s);
    TurnFitsNow(g, dis, s, g.Size());
    CirclingStep(g, dis, s);
    StepKept(g, dis, s);
    StepInv(g, dis, s);
    if k > 0 { CirclingRunFits(g, dis, Step(g, dis, s).s, k - 1); }
  }

  /** The stack fits into one entry a vertex in every run, after any number of turns and at every moment of every
      propagation, unless vertex 0 is entangled and some predecessor would gain by moving to it. */
  lemma StackAlwaysFits(g: Game, dis: seq<bool>, strategy: seq<int>, k: nat)
    requires Instance(g, dis) && |strategy| == g.Size() && Contained(g, dis)
    ensures Sized(g, Initial(g, strategy)) && RunFits(g, dis, Initial(g, strategy), k, g.Size())
  {
    var s := Initial(g, strategy);
    InitialInv(g, dis, strategy);
    InitialKept(g, dis, strategy);
    hide Inv, Kept, Benign, Drawn, DrawnEnabled, Unmoved, Deferring, Stranded, RunFits, Circling, SelfResetting;
    if Repelling(g, dis) {
      SteadyRunFits(g, dis, s, k);
    } else if Benign(g, dis) {
      InitialClean(g, dis, strategy);
      CleanRunFits(g, dis, s, k);
    } else if Trapped(g, dis) {
      InitialCircles(g, dis, strategy);
      CirclingRunFits(g, dis, s, k);
    } else if !Drawn(g, dis) {
      BenignIfEnabled(g, dis);
      InitialUnmoved(g, dis, strategy);
      UnmovedRunFits(g, dis, FirstFixpoint(g, dis), s, k);
    } else {
      if SelfResetting(g) { SelfResettingNotDrawn(g, dis); }
      if Deferring(g, dis) { DeferringRepels(g, dis); }
      SteadyRunFits(g, dis, s, k);
    }
  }

  lemma DeferringRepels(g: Game, dis: seq<bool>)
    requires Instance(g, dis) && Deferring(g, dis) && !SelfResetting(g)
    ensures Repelling(g, dis)
  {
  }

  /** On benign inputs, no propagation resets a vertex that it has just flipped. */
  lemma FlippedStay(g: Game, dis: seq<bool>, strategy: seq<int>, k: nat)
    requires Instance(g, dis) && |strategy| == g.Size() && Benign(g, dis)
    ensures Sized(g, Initial(g, strategy))
    ensures var o := Run(g, dis, Initial(g, strategy), k);
      o.Running? ==> forall v :: v in o.s.q ==> EndBlock(g, dis, o.s).justified[v] && EndBlock(g, dis, o.s).distraction[v]
  {
    hide Inv, Clean, Benign, Run;
    InitialInv(g, dis, strategy);
    InitialClean(g, dis, strategy);
    RunClean(g, dis, Initial(g, strategy), k);
    var o := Run(g, dis, Initial(g, strategy), k);
    if o.Running? && o.s.q != [] { CleanKeepsFlipped(g, dis, o.s); }
  }

  lemma CleanKeepsFlipped(g: Game, dis: seq<bool>, s: State)
    requires Inv(g, dis, s) && Clean(g, dis, s) && s.q != []
    ensures forall v :: v in s.q ==> EndBlock(g, dis, s).justified[v] && EndBlock(g, dis, s).distraction[v]
  {
    var b :| Labels(g, dis, s, b);
    CleanHarmless(g, dis, s);
    FlipLoses(g, dis, s, EndBlock(g, dis, s), b);
    hide EndBlock, Labels, Winning, Affected;
    forall v | v in s.q ensures v !in Resettable(g, dis, s, b) { FlippedUnjustified(g, dis, s, v); }
    forall v | v in s.q ensures !Lost(s, EndBlock(g, dis, s), v) { }
  }

  lemma FlippedUnjustified(g: Game, dis: seq<bool>, s: State, v: nat)
    requires Inv(g, dis, s) && v in s.q
    ensures !s.justified[v] && v < g.Size()
  {
    hide Winning, Labels;
  }

  /** A sound and flushed solved part leaves no other case when the owner of vertex 0 does not own its priority. */
  lemma SolvedContained(g: Game, dis: seq<bool>, win: seq<Player>, str: seq<int>)
    requires Instance(g, dis) && dis[0] && g.owner[0] != g.Parity(0)
    requires var solved := Vertices(g) - Dom(dis); PartialSolution(g, solved, win, str) && AttractorClosed(g, solved, win)
    ensures Contained(g, dis)
  {
    SolvedDefers(g, dis, win, str);
    hide Benign, Drawn, DrawnEnabled, Deferring, PartialSolution, AttractorClosed;
  }

  // ---------------------------------------------------------------------------------------------------------
  // Two entries a vertex
  // ---------------------------------------------------------------------------------------------------------

  /** A reset vertex is no longer justified, so that no vertex is pushed twice while the stack is worked off. */
  lemma {:induction false} ResetTwice(g: Game, s: State, v: nat, k: nat, c: nat)
    requires Sized(g, s) && v < g.Size() && k <= |g.ins[v]| && |s.q| + CountTrue(s.justified) <= c
    ensures ResetFits(g, s, v, k, c)
    ensures var t := ResetIns(g, s, v, k); |t.q| + CountTrue(t.justified) <= c
    decreases |g.ins[v]| - k
  {
    if k < |g.ins[v]| {
      var from := g.ins[v][k];
      if s.justified[from] && (s.strategy[from] == -1 || s.strategy[from] == v) {
        CountCleared(s.justified, from);
        ResetTwice(g, Reset(s, from), v, k + 1, c);
      } else {
        ResetTwice(g, s, v, k + 1, c);
      }
    }
  }

  lemma {:induction false} PropagateTwice(g: Game, s: State, c: nat)
    requires Sized(g, s) && |s.q| + CountTrue(s.justified) <= c
    ensures StackFits(g, s, c)
    decreases |s.q| + 2 * CountTrue(s.justified)
  {
    if s.q != [] {
      var v, r := s.q[|s.q| - 1], s.(q := s.q[..|s.q| - 1]);
      ResetTwice(g, r, v, 0, c);
      PropagateTwice(g, ResetIns(g, r, v, 0), c);
    }
  }

  lemma TurnTwice(g: Game, dis: seq<bool>, s: State)
    requires Inv(g, dis, s)
    ensures TurnFits(g, dis, s, 2 * g.Size())
  {
    NoRepeatFits(s.q, g.Size());
    hide Winning, Labels, StackFits;
    var m := Marked(g, s);
    CountFewer(m.justified, m.justified);
    PropagateTwice(g, m, 2 * g.Size());
  }

  lemma {:induction false} TwiceRunFits(g: Game, dis: seq<bool>, s: State, k: nat)
    requires Sized(g, s) && |dis| == g.Size() && Inv(g, dis, s)
    ensures RunFits(g, dis, s, k, 2 * g.Size())
    decreases k
  {
    hide Inv, Step, TurnFits;
    TurnTwice(g, dis, s);
    TurnFitsNow(g, dis, s, 2 * g.Size());
    StepInv(g, dis, s);
    if k > 0 && Step(g, dis, s).Running? { TwiceRunFits(g, dis, Step(g, dis, s).s, k - 1); }
  }

  /** On every input two entries a vertex suffice. */
  lemma TwiceAlwaysFits(g: Game, dis: seq<bool>, strategy: seq<int>, k: nat)
    requires Instance(g, dis) && |strategy| == g.Size()
    ensures Sized(g, Initial(g, strategy)) && RunFits(g, dis, Initial(g, strategy), k, 2 * g.Size())
  {
    hide RunFits, Inv;
    InitialInv(g, dis, strategy);
    TwiceRunFits(g, dis, Initial(g, strategy), k);
  }

  // ---------------------------------------------------------------------------------------------------------
  // A bounded run decides
  // ---------------------------------------------------------------------------------------------------------

  lemma {:induction false} ResetFitsAlike(g: Game, s: State, t: State, v: nat, k: nat, c: nat)
    requires Sized(g, s) && Sized(g, t) && Alike(s, t) && v < g.Size() && k <= |g.ins[v]|
    ensures ResetFits(g, s, v, k, c) <==> ResetFits(g, t, v, k, c)
    decreases |g.ins[v]| - k
  {
    if k < |g.ins[v]| {
      var from := g.ins[v][k];
      if s.justified[from] && (s.strategy[from] == -1 || s.strategy[from] == v) {
        ResetFitsAlike(g, Reset(s, from), Reset(t, from), v, k + 1, c);
      } else {
        ResetFitsAlike(g, s, t, v, k + 1, c);
      }
    }
  }

  lemma {:induction false} StackFitsAlike(g: Game, s: State, t: State, c: nat)
    requires Sized(g, s) && Sized(g, t) && Alike(s, t)
    ensures StackFits(g, s, c) <==> StackFits(g, t, c)
    decreases |s.q| + 2 * CountTrue(s.justified)
  {
    if s.q != [] {
      var v, r, u := s.q[|s.q| - 1], s.(q := s.q[..|s.q| - 1]), t.(q := t.q[..|t.q| - 1]);
      ResetFitsAlike(g, r, u, v, 0, c);
      ResetInsAlike(g, r, u, v, 0);
      StackFitsAlike(g, ResetIns(g, r, v, 0), ResetIns(g, u, v, 0), c);
    }
  }

  lemma TurnFitsAlike(g: Game, dis: seq<bool>, s: State, t: State, c: nat)
    requires Sized(g, s) && Sized(g, t) && |dis| == g.Size() && Alike(s, t) && TurnFits(g, dis, s, c)
    ensures TurnFits(g, dis, t, c)
  {
    hide StackFits;
    StackFitsAlike(g, Marked(g, s), Marked(g, t), c);
  }

  lemma {:induction false} RunFitsIf(g: Game, dis: seq<bool>, s: State, k: nat, c: nat)
    requires Sized(g, s) && |dis| == g.Size()
    requires forall j: nat :: j <= k && Run(g, dis, s, j).Running? ==> TurnFits(g, dis, Run(g, dis, s, j).s, c)
    ensures RunFits(g, dis, s, k, c)
    decreases k
  {
    assert TurnFits(g, dis, Run(g, dis, s, 0).s, c);
    TurnFitsNow(g, dis, s, c);
    hide Step, Sized, TurnFits;
    if k > 0 && Step(g, dis, s).Running? {
      var t := Step(g, dis, s).s;
      forall j: nat | j <= k - 1 && Run(g, dis, t, j).Running? ensures TurnFits(g, dis, Run(g, dis, t, j).s, c) {
        assert Run(g, dis, s, j + 1) == Run(g, dis, t, j);
      }
      RunFitsIf(g, dis, t, k - 1, c);
    }
  }

  lemma {:induction false} TurnFitsEver(g: Game, dis: seq<bool>, s: State, i: nat, j: nat, budget: nat, k: nat, c: nat)
    requires Sized(g, s) && |dis| == g.Size() && i < j < budget && RunFits(g, dis, s, budget, c)
    requires Run(g, dis, s, j).Running? && Run(g, dis, s, i).Running? && Alike(Run(g, dis, s, i).s, Run(g, dis, s, j).s)
    requires Run(g, dis, s, k).Running?
    ensures TurnFits(g, dis, Run(g, dis, s, k).s, c)
    decreases k
  {
    hide Run, Step, Sized, RunFits, TurnFits, Alike;
    if k < budget {
      RunFitsAt(g, dis, s, k, budget, c);
    } else {
      MetBefore(g, dis, s, i, j, k);
      TurnFitsEver(g, dis, s, i, j, budget, k - (j - i), c);
      TurnFitsAlike(g, dis, Run(g, dis, s, k - (j - i)).s, Run(g, dis, s, k).s, c);
    }
  }

  /** If the stack has not run out of its `c` entries by the cutoff, it never will. */
  lemma CutoffFits(g: Game, dis: seq<bool>, strategy: seq<int>, budget: nat, k: nat, c: nat)
    requires Instance(g, dis) && |strategy| == g.Size() && budget > Cutoff(g)
    requires Sized(g, Initial(g, strategy)) && RunFits(g, dis, Initial(g, strategy), budget, c)
    ensures RunFits(g, dis, Initial(g, strategy), k, c)
  {
    hide Run, RunFits, TurnFits, Cutoff;
    var s := Initial(g, strategy);
    forall m: nat | m <= k && Run(g, dis, s, m).Running? ensures TurnFits(g, dis, Run(g, dis, s, m).s, c) {
      if m < budget {
        RunFitsAt(g, dis, s, m, budget, c);
      } else {
        RunSplit(g, dis, s, budget - 1, m - (budget - 1));
        var i, j := MeetsAgain(g, dis, strategy, budget - 1);
        TurnFitsEver(g, dis, s, i, j, budget, m, c);
      }
    }
    RunFitsIf(g, dis, s, k, c);
  }
}
