/** The invariants of the bounded search for strongly connected components in Verifier::verify.

    One search explores, from vertex `i`, the moves that respect the strategies among the vertices up to `i` that are not
    yet done at priority `p`. As in the source, `low` doubles as the visiting order: it exceeds `bot` once a vertex has
    been visited in this search. The visiting order `num` and the finishing order `fin` are kept for the proof only. */
module VerifierSearch {
  import opened ParityGames
  import opened Solutions

  datatype Context = Context(g: Game, dom: set<nat>, win: seq<Player>, str: seq<int>, i: nat, p: nat, bot: int)

  datatype Search = Search(
    low: seq<int>, done: seq<int>, res: seq<nat>, st: seq<nat>, pre: int,
    num: seq<int>, fin: seq<nat>, clock: nat)

  ghost predicate Scope(c: Context) {
    && Shape(c.g, c.dom, c.win, c.str) && c.g.Sorted() && RegionsClosed(c.g, c.dom, c.win, c.str)
    && c.i in c.dom && c.p == c.g.priority[c.i] && c.win[c.i] != c.g.Parity(c.i)
  }

  ghost predicate Go(c: Context, u: nat, v: nat)
    requires Scope(c)
  {
    Move(c.g, c.dom, c.win, c.str, u, v)
  }

  /** Visited in this search, and its component has not been completed. */
  ghost predicate Open(c: Context, s: Search, x: nat) {
    x < |s.low| && x < |s.done| && x < |s.num| && x < |s.fin| && s.low[x] > c.bot && s.done[x] != c.p
  }

  ghost predicate Finished(c: Context, s: Search, x: nat) {
    Open(c, s, x) && x !in s.st
  }

  // ---------------------------------------------------------------------------------------------------------
  // The invariant
  // ---------------------------------------------------------------------------------------------------------

  ghost predicate Numbers(c: Context, s: Search)
    requires Scope(c)
  {
    && |s.low| == |s.done| == |s.num| == |s.fin| == c.g.Size()
    && c.bot <= s.pre
    && (forall x :: 0 <= x < c.g.Size() ==> s.low[x] <= s.pre && s.fin[x] <= s.clock)
    && (forall x: nat :: Open(c, s, x) ==>
          x in c.dom && x <= c.i && c.win[x] == c.win[c.i] && s.low[x] <= s.num[x] <= s.pre)
    && (forall x: nat, y: nat :: Open(c, s, x) && Open(c, s, y) && s.num[x] == s.num[y] ==> x == y)
  }

  /** `res` holds the open vertices in the order of their visits. */
  ghost predicate Listed(c: Context, s: Search)
    requires Scope(c) && Numbers(c, s)
  {
    && (forall x :: x in s.res <==> Open(c, s, x))
    && (forall a, b :: 0 <= a < b < |s.res| ==> Open(c, s, s.res[a]) && Open(c, s, s.res[b]) && s.num[s.res[a]] < s.num[s.res[b]])
  }

  ghost predicate Link(c: Context, st: seq<nat>, k: nat)
    requires Scope(c) && k + 1 < |st|
  {
    Go(c, st[k], st[k + 1])
  }

  /** `st` is a path of moves from `i`, visited in this order except perhaps for its last vertex. */
  ghost predicate Path(c: Context, s: Search)
    requires Scope(c) && Numbers(c, s)
  {
    && (forall k :: 0 <= k < |s.st| ==>
          s.st[k] in c.dom && s.st[k] <= c.i && c.win[s.st[k]] == c.win[c.i] && s.done[s.st[k]] != c.p)
    && (forall k :: 0 <= k < |s.st| - 1 ==> Open(c, s, s.st[k]))
    && (forall k :: 0 <= k < |s.st| - 1 ==> Link(c, s.st, k))
    && (forall j, k :: 0 <= j < k < |s.st| && Open(c, s, s.st[k]) ==> s.num[s.st[j]] < s.num[s.st[k]])
    && (forall k :: 0 <= k < |s.st| && Open(c, s, s.st[k]) ==> s.low[s.st[k]] == s.num[s.st[k]])
    && (|s.st| > 0 ==> s.st[0] == c.i && (if Open(c, s, c.i) then s.num[c.i] == c.bot + 1 else s.pre == c.bot))
  }

  ghost predicate Stacks(c: Context, s: Search)
    requires Scope(c) && Numbers(c, s)
  {
    Listed(c, s) && Path(c, s)
  }

  /** A finished vertex has seen all its successors, and its `low` bounds their numbers. */
  ghost predicate Seen(c: Context, s: Search, x: nat)
    requires Scope(c) && Numbers(c, s) && Open(c, s, x)
  {
    forall y: nat :: Go(c, x, y) && y <= c.i ==> s.done[y] == c.p || (Open(c, s, y) && s.low[x] <= s.num[y])
  }

  /** The next step of a way from the finished vertex `x` to the vertex whose number is `low[x]`. */
  ghost predicate Back(c: Context, s: Search, x: nat, y: nat)
    requires Scope(c) && Open(c, s, x)
  {
    && Open(c, s, y) && Go(c, x, y)
    && (s.num[y] == s.low[x] || (y !in s.st && s.low[y] == s.low[x] && s.fin[y] < s.fin[x]))
  }

  ghost predicate WayBack(c: Context, s: Search, x: nat)
    requires Scope(c) && Open(c, s, x)
  {
    s.low[x] < s.num[x] && exists y: nat :: Back(c, s, x, y)
  }

  /** The previous step of a way to `x` through vertices numbered from `m` on. */
  ghost predicate Forth(c: Context, s: Search, m: int, x: nat, y: nat)
    requires Scope(c) && Open(c, s, x)
  {
    Open(c, s, y) && Go(c, y, x) && m <= s.num[y] < s.num[x]
  }

  ghost predicate WayForth(c: Context, s: Search, m: int, x: nat)
    requires Scope(c) && Open(c, s, x)
  {
    exists y: nat :: Forth(c, s, m, x, y)
  }

  /** A finished successor of `v` has at most the `low` of `x`. */
  ghost predicate Child(c: Context, s: Search, v: nat, x: nat, ch: nat)
    requires Scope(c) && Open(c, s, x)
  {
    Finished(c, s, ch) && Go(c, v, ch) && s.low[ch] <= s.low[x]
  }

  ghost predicate Covered(c: Context, s: Search, v: nat, x: nat)
    requires Scope(c) && Open(c, s, x)
  {
    exists ch: nat :: Child(c, s, v, x, ch)
  }

  /** `x` was numbered after the k-th vertex of the search path and before the next one. */
  ghost predicate Between(c: Context, s: Search, k: nat, x: nat)
    requires k < |s.st|
  {
    && Open(c, s, s.st[k]) && Finished(c, s, x) && s.num[s.st[k]] < s.num[x]
    && (k + 1 < |s.st| && Open(c, s, s.st[k + 1]) ==> s.num[x] < s.num[s.st[k + 1]])
  }

  ghost predicate Ways(c: Context, s: Search)
    requires Scope(c) && Numbers(c, s)
  {
    && (forall x :: Finished(c, s, x) ==> Seen(c, s, x) && WayBack(c, s, x))
    && (forall k, x: nat :: 0 <= k < |s.st| && Open(c, s, s.st[k]) && Open(c, s, x) && s.num[s.st[k]] < s.num[x] ==>
          WayForth(c, s, s.num[s.st[k]], x))
    && (forall k, x :: 0 <= k < |s.st| && Between(c, s, k, x) ==> Covered(c, s, s.st[k], x))
  }

  ghost predicate Below(w: seq<nat>, i: int) {
    forall k :: 0 <= k < |w| ==> w[k] <= i
  }

  /** No closed walk up to `i` through `x` meets priority `q`. */
  ghost predicate ClearUpTo(g: Game, dom: set<nat>, win: seq<Player>, str: seq<int>, i: int, x: nat, q: int)
    requires Shape(g, dom, win, str)
  {
    forall w :: ClosedWalk(g, dom, win, str, w) && Below(w, i) && x in w ==>
      forall k :: 0 <= k < |w| && w[k] < g.Size() ==> g.priority[w[k]] != q
  }

  ghost predicate Clear(c: Context, x: nat, q: int)
    requires Scope(c)
  {
    ClearUpTo(c.g, c.dom, c.win, c.str, c.i, x, q)
  }

  ghost predicate DoneClear(c: Context, done: seq<int>)
    requires Scope(c)
  {
    forall x :: 0 <= x < |done| ==> Clear(c, x, done[x])
  }

  ghost predicate Inv(c: Context, s: Search) {
    Scope(c) && Numbers(c, s) && Stacks(c, s) && Ways(c, s) && DoneClear(c, s.done)
  }

  // ---------------------------------------------------------------------------------------------------------
  // Visiting and pushing
  // ---------------------------------------------------------------------------------------------------------

  ghost function Top(s: Search): nat
    requires s.st != []
  {
    s.st[|s.st| - 1]
  }

  ghost function Visit(s: Search): Search
    requires s.st != [] && Top(s) < |s.low| && Top(s) < |s.num|
  {
    s.(pre := s.pre + 1, low := s.low[Top(s) := s.pre + 1], num := s.num[Top(s) := s.pre + 1], res := s.res + [Top(s)])
  }

  ghost function Push(s: Search, to: nat): Search {
    s.(st := s.st + [to])
  }

  lemma VisitNumbers(c: Context, s: Search)
    requires Inv(c, s) && s.st != [] && !Open(c, s, Top(s))
    ensures Numbers(c, Visit(s))
  {
    hide DoneClear, RegionsClosed, Game.Valid, Game.Sorted, Ways;
  }

  lemma VisitStacks(c: Context, s: Search)
    requires Inv(c, s) && s.st != [] && !Open(c, s, Top(s)) && Numbers(c, Visit(s))
    ensures Stacks(c, Visit(s))
  {
    hide DoneClear, RegionsClosed, Game.Valid, Game.Sorted, Ways, Go;
    var t := Visit(s);
    assert forall x: nat :: Open(c, t, x) <==> Open(c, s, x) || x == Top(s);
    assert forall k :: 0 <= k < |s.st| - 1 ==> Link(c, s.st, k);
  }

  lemma VisitFinished(c: Context, s: Search, x: nat)
    requires Inv(c, s) && s.st != [] && !Open(c, s, Top(s)) && Numbers(c, Visit(s)) && Finished(c, Visit(s), x)
    ensures Seen(c, Visit(s), x) && WayBack(c, Visit(s), x)
  {
    hide DoneClear, RegionsClosed, Game.Valid, Game.Sorted, WayForth, Covered, Go;
    assert Finished(c, s, x);
    assert Seen(c, s, x);
    var y: nat :| Back(c, s, x, y);
    assert Back(c, Visit(s), x, y);
  }

  /** The parent on the search path has been visited, after all that precedes it there. */
  lemma ParentOpen(c: Context, s: Search, k: nat)
    requires Inv(c, s) && k < |s.st| - 1
    ensures var u := s.st[|s.st| - 2];
      Open(c, s, s.st[k]) && Open(c, s, u) && Go(c, u, Top(s)) && s.num[s.st[k]] <= s.num[u]
  {
    hide Ways, Listed, DoneClear, RegionsClosed, Game.Valid, Game.Sorted;
    assert Link(c, s.st, |s.st| - 2);
  }

  lemma VisitForthOther(c: Context, s: Search, u: nat, x: nat)
    requires Scope(c) && Numbers(c, s) && s.st != [] && Top(s) < c.g.Size() && Numbers(c, Visit(s))
    requires !Open(c, s, Top(s)) && x != Top(s) && u < c.g.Size() && Open(c, s, x) && WayForth(c, s, s.num[u], x)
    ensures WayForth(c, Visit(s), s.num[u], x)
  {
    hide DoneClear, RegionsClosed, Game.Valid, Game.Sorted, Ways, Stacks, Go;
    var y: nat :| Forth(c, s, s.num[u], x, y);
    assert Forth(c, Visit(s), s.num[u], x, y);
  }

  lemma VisitForth(c: Context, s: Search, k: nat, x: nat)
    requires Inv(c, s) && s.st != [] && !Open(c, s, Top(s)) && Top(s) < c.g.Size() && Numbers(c, Visit(s))
    requires var t := Visit(s); k < |t.st| && Open(c, t, t.st[k]) && Open(c, t, x) && t.num[t.st[k]] < t.num[x]
    ensures WayForth(c, Visit(s), Visit(s).num[s.st[k]], x)
  {
    hide DoneClear, RegionsClosed, Game.Valid, Game.Sorted, Seen, WayBack, Covered, Stacks, Go, Between;
    var t, v := Visit(s), Top(s);
    if x == v {
      assert k < |s.st| - 1;
      ParentOpen(c, s, k);
      assert Forth(c, t, t.num[t.st[k]], x, s.st[|s.st| - 2]);
    } else {
      hide Forth;
      assert s.st[k] != v && Open(c, s, x) && Open(c, s, s.st[k]);
      assert WayForth(c, s, s.num[s.st[k]], x);
      hide Ways, WayForth;
      VisitForthOther(c, s, s.st[k], x);
    }
  }

  lemma VisitCovered(c: Context, s: Search, k: nat, x: nat)
    requires Inv(c, s) && s.st != [] && !Open(c, s, Top(s)) && Numbers(c, Visit(s))
    requires k < |s.st| && Between(c, Visit(s), k, x)
    ensures Covered(c, Visit(s), s.st[k], x)
  {
    hide DoneClear, RegionsClosed, Game.Valid, Game.Sorted, Go, Seen, WayBack, WayForth;
    var t := Visit(s);
    assert x != Top(s) && Open(c, s, x) && s.num[x] == t.num[x] <= s.pre;
    assert k < |s.st| - 1;
    assert Between(c, s, k, x);
    var ch: nat :| Child(c, s, s.st[k], x, ch);
    assert Child(c, t, s.st[k], x, ch);
  }

  lemma VisitInv(c: Context, s: Search)
    requires Inv(c, s) && s.st != [] && !Open(c, s, Top(s))
    ensures Inv(c, Visit(s)) && Open(c, Visit(s), Top(s))
  {
    hide Seen, WayBack, WayForth, Covered, Go, DoneClear, RegionsClosed, Game.Valid, Game.Sorted;
    var t := Visit(s);
    VisitNumbers(c, s);
    VisitStacks(c, s);
    forall x: nat | Finished(c, t, x) ensures Seen(c, t, x) && WayBack(c, t, x) { VisitFinished(c, s, x); }
    forall k, x: nat | 0 <= k < |t.st| && Open(c, t, t.st[k]) && Open(c, t, x) && t.num[t.st[k]] < t.num[x]
      ensures WayForth(c, t, t.num[t.st[k]], x)
    {
      VisitForth(c, s, k, x);
    }
    forall k, x: nat | 0 <= k < |t.st| && Between(c, t, k, x) ensures Covered(c, t, t.st[k], x) { VisitCovered(c, s, k, x); }
  }

  lemma PushListed(c: Context, s: Search, to: nat)
    requires Inv(c, s)
    ensures Numbers(c, Push(s, to)) && Listed(c, Push(s, to))
  {
    hide DoneClear, RegionsClosed, Game.Valid, Game.Sorted, Ways, Path;
    assert forall x: nat :: Open(c, Push(s, to), x) <==> Open(c, s, x);
  }

  lemma PushLink(c: Context, s: Search, to: nat, k: nat)
    requires Scope(c) && Numbers(c, s) && Path(c, s) && s.st != [] && Go(c, Top(s), to) && k < |s.st|
    ensures Link(c, Push(s, to).st, k)
  {
    if k < |s.st| - 1 { assert Link(c, s.st, k); }
  }

  lemma PushOrder(c: Context, s: Search, to: nat, j: nat, k: nat)
    requires Scope(c) && Numbers(c, s) && Path(c, s) && s.st != [] && Open(c, s, Top(s)) && !Open(c, s, to)
    requires j < k < |s.st| + 1 && Open(c, Push(s, to), Push(s, to).st[k])
    ensures s.num[Push(s, to).st[j]] < s.num[Push(s, to).st[k]]
  {
    hide Go, Link;
    assert k < |s.st|;
  }

  lemma PushPlace(c: Context, s: Search, to: nat, k: nat)
    requires Scope(c) && Numbers(c, s) && Path(c, s) && s.st != [] && Open(c, s, Top(s)) && !Open(c, s, to)
    requires to in c.dom && to <= c.i && c.win[to] == c.win[c.i] && s.done[to] != c.p
    requires k < |s.st| + 1
    ensures var x := Push(s, to).st[k];
      && x in c.dom && x <= c.i && c.win[x] == c.win[c.i] && s.done[x] != c.p
      && (Open(c, s, x) <==> k < |s.st|) && (Open(c, s, x) ==> s.low[x] == s.num[x])
  {
    hide Go, Link;
    if k == |s.st| - 1 { assert Push(s, to).st[k] == Top(s); }
  }

  lemma PushPath(c: Context, s: Search, to: nat)
    requires Scope(c) && Numbers(c, s) && Path(c, s) && s.st != [] && Open(c, s, Top(s)) && Numbers(c, Push(s, to))
    requires Go(c, Top(s), to) && to <= c.i && s.done[to] != c.p && s.low[to] <= c.bot
    ensures Path(c, Push(s, to))
  {
    var t := Push(s, to);
    MoveKeepsWinner(c.g, c.dom, c.win, c.str, Top(s), to);
    assert !Open(c, s, to) && c.win[Top(s)] == c.win[c.i];
    assert s.st[0] == c.i && (if Open(c, s, c.i) then s.num[c.i] == c.bot + 1 else s.pre == c.bot);
    assert forall x: nat :: Open(c, t, x) <==> Open(c, s, x);
    hide RegionsClosed, Game.Valid, Game.Sorted, Link, Open, Numbers;
    forall k | 0 <= k < |t.st| - 1 ensures Link(c, t.st, k) { PushLink(c, s, to, k); }
    forall k | 0 <= k < |t.st|
      ensures t.st[k] in c.dom && t.st[k] <= c.i && c.win[t.st[k]] == c.win[c.i] && t.done[t.st[k]] != c.p
      ensures (Open(c, t, t.st[k]) <==> k < |s.st|) && (Open(c, t, t.st[k]) ==> t.low[t.st[k]] == t.num[t.st[k]])
    {
      PushPlace(c, s, to, k);
    }
    forall j, k | 0 <= j < k < |t.st| && Open(c, t, t.st[k]) ensures t.num[t.st[j]] < t.num[t.st[k]] {
      PushOrder(c, s, to, j, k);
    }
  }

  lemma PushCovered(c: Context, s: Search, to: nat, k: nat, x: nat)
    requires Inv(c, s) && s.st != [] && Open(c, s, Top(s)) && !Open(c, s, to) && Numbers(c, Push(s, to))
    requires k < |s.st| + 1 && Between(c, Push(s, to), k, x)
    ensures Covered(c, Push(s, to), Push(s, to).st[k], x)
  {
    hide DoneClear, RegionsClosed, Game.Valid, Game.Sorted, Go, Seen, WayBack, WayForth;
    var t := Push(s, to);
    assert Open(c, s, t.st[k]) && k < |s.st| && t.st[k] == s.st[k] && Finished(c, s, x);
    assert Between(c, s, k, x);
    var ch: nat :| Child(c, s, s.st[k], x, ch);
    assert Child(c, t, t.st[k], x, ch);
  }

  lemma PushWays(c: Context, s: Search, to: nat)
    requires Inv(c, s) && s.st != [] && Open(c, s, Top(s)) && !Open(c, s, to)
    requires Numbers(c, Push(s, to))
    ensures Ways(c, Push(s, to))
  {
    hide DoneClear, RegionsClosed, Game.Valid, Game.Sorted, Go, Covered, Stacks;
    var t := Push(s, to);
    assert forall x: nat :: Open(c, t, x) <==> Open(c, s, x);
    forall x: nat | Finished(c, t, x) ensures Seen(c, t, x) && WayBack(c, t, x) {
      assert Finished(c, s, x) && Seen(c, s, x);
      var y: nat :| Back(c, s, x, y);
      assert Back(c, t, x, y);
    }
    forall k, x: nat | 0 <= k < |t.st| && Open(c, t, t.st[k]) && Open(c, t, x) && t.num[t.st[k]] < t.num[x]
      ensures WayForth(c, t, t.num[t.st[k]], x)
    {
      assert k < |s.st| && t.st[k] == s.st[k];
      assert WayForth(c, s, s.num[s.st[k]], x);
      var y: nat :| Forth(c, s, s.num[s.st[k]], x, y);
      assert Forth(c, t, t.num[t.st[k]], x, y);
    }
    forall k, x: nat | 0 <= k < |t.st| && Between(c, t, k, x) ensures Covered(c, t, t.st[k], x) {
      PushCovered(c, s, to, k, x);
    }
  }

  lemma PushInv(c: Context, s: Search, to: nat)
    requires Inv(c, s) && s.st != [] && Open(c, s, Top(s))
    requires Go(c, Top(s), to) && to <= c.i && s.done[to] != c.p && s.low[to] <= c.bot
    ensures Inv(c, Push(s, to))
  {
    hide DoneClear, RegionsClosed, Game.Valid, Game.Sorted, Ways, Go;
    PushListed(c, s, to);
    PushPath(c, s, to);
    PushWays(c, s, to);
  }

  // ---------------------------------------------------------------------------------------------------------
  // Finishing a vertex that is not the root of its component
  // ---------------------------------------------------------------------------------------------------------

  /** All moves of `v` lead to done or open vertices, and `min` is the least `low` among `v` and the open ones. */
  ghost predicate Scanned(c: Context, s: Search, v: nat, min: int)
    requires Scope(c) && Numbers(c, s)
  {
    && Open(c, s, v) && min <= s.low[v]
    && (forall y: nat :: Go(c, v, y) && y <= c.i ==> s.done[y] == c.p || (Open(c, s, y) && min <= s.low[y]))
    && (min == s.low[v] || exists y: nat :: Open(c, s, y) && Go(c, v, y) && s.low[y] == min)
  }

  ghost function Retreat(s: Search, min: int): Search
    requires s.st != [] && Top(s) < |s.low| && Top(s) < |s.fin|
  {
    s.(low := s.low[Top(s) := min], fin := s.fin[Top(s) := s.clock + 1], clock := s.clock + 1, st := s.st[..|s.st| - 1])
  }

  lemma RetreatListed(c: Context, s: Search, min: int)
    requires Inv(c, s) && s.st != [] && Scanned(c, s, Top(s), min) && min < s.low[Top(s)]
    ensures Numbers(c, Retreat(s, min)) && Listed(c, Retreat(s, min)) && |s.st| >= 2
    ensures forall x: nat :: Open(c, Retreat(s, min), x) <==> Open(c, s, x)
  {
    hide DoneClear, RegionsClosed, Game.Valid, Game.Sorted, Ways, Go;
    assert min > c.bot;
    assert |s.st| >= 2;
    assert forall x: nat :: Open(c, Retreat(s, min), x) <==> Open(c, s, x);
  }

  lemma RetreatStacks(c: Context, s: Search, min: int)
    requires Inv(c, s) && s.st != [] && Scanned(c, s, Top(s), min) && min < s.low[Top(s)]
    ensures Numbers(c, Retreat(s, min)) && Stacks(c, Retreat(s, min)) && |s.st| >= 2
    ensures forall x: nat :: Finished(c, Retreat(s, min), x) <==> Finished(c, s, x) || x == Top(s)
    ensures forall x: nat :: Open(c, Retreat(s, min), x) <==> Open(c, s, x)
  {
    hide DoneClear, RegionsClosed, Game.Valid, Game.Sorted, Ways, Go, Listed;
    RetreatListed(c, s, min);
    hide Open;
    var t := Retreat(s, min);
    assert forall k :: 0 <= k < |t.st| ==> t.st[k] == s.st[k] != Top(s);
    forall k | 0 <= k < |t.st| - 1 ensures Link(c, t.st, k) { assert Link(c, s.st, k); }
    assert forall x: nat :: x in s.st <==> x in t.st || x == Top(s);
  }

  lemma RetreatFinished(c: Context, s: Search, min: int, x: nat)
    requires Inv(c, s) && s.st != [] && Scanned(c, s, Top(s), min) && min < s.low[Top(s)]
    requires Numbers(c, Retreat(s, min)) && Finished(c, Retreat(s, min), x)
    ensures Seen(c, Retreat(s, min), x) && WayBack(c, Retreat(s, min), x)
  {
    hide DoneClear, RegionsClosed, Game.Valid, Game.Sorted, Go, WayForth, Covered;
    var t, v := Retreat(s, min), Top(s);
    RetreatStacks(c, s, min);
    if x == v {
      var y: nat :| Open(c, s, y) && Go(c, v, y) && s.low[y] == min;
      assert Back(c, t, x, y);
    } else {
      assert Finished(c, s, x) && Seen(c, s, x);
      var y: nat :| Back(c, s, x, y);
      assert Back(c, t, x, y);
    }
  }

  lemma RetreatCovered(c: Context, s: Search, min: int, k: nat, x: nat)
    requires Inv(c, s) && s.st != [] && Scanned(c, s, Top(s), min) && min < s.low[Top(s)]
    requires k < |s.st| - 1 && Between(c, Retreat(s, min), k, x)
    requires Numbers(c, Retreat(s, min))
    ensures Covered(c, Retreat(s, min), s.st[k], x)
  {
    hide DoneClear, RegionsClosed, Game.Valid, Game.Sorted, Seen, WayBack, WayForth, Listed;
    var t, v, m := Retreat(s, min), Top(s), |s.st| - 1;
    RetreatStacks(c, s, min);
    assert Link(c, s.st, m - 1);
    assert forall j :: 0 <= j < m ==> t.st[j] == s.st[j];
    hide Go, Link;
    if x == v {
      assert k == m - 1;
      assert Child(c, t, s.st[k], x, v);
    } else if k == m - 1 && s.num[v] < s.num[x] {
      assert Between(c, s, m, x);
      var ch: nat :| Child(c, s, v, x, ch);
      assert min <= s.low[ch];
      assert Child(c, t, s.st[k], x, v);
    } else {
      assert Between(c, s, k, x);
      var ch: nat :| Child(c, s, s.st[k], x, ch);
      assert Child(c, t, s.st[k], x, ch);
    }
  }

  lemma RetreatForth(c: Context, s: Search, min: int, k: nat, x: nat)
    requires Inv(c, s) && s.st != [] && Scanned(c, s, Top(s), min) && min < s.low[Top(s)] && Numbers(c, Retreat(s, min))
    requires k < |s.st| - 1 && Open(c, s, s.st[k]) && Open(c, s, x) && s.num[s.st[k]] < s.num[x]
    requires Open(c, Retreat(s, min), x)
    ensures WayForth(c, Retreat(s, min), s.num[s.st[k]], x)
  {
    hide Seen, WayBack, Covered, Go, DoneClear, RegionsClosed, Game.Valid, Game.Sorted, Stacks;
    assert WayForth(c, s, s.num[s.st[k]], x);
    var y: nat :| Forth(c, s, s.num[s.st[k]], x, y);
    assert Forth(c, Retreat(s, min), s.num[s.st[k]], x, y);
  }

  lemma RetreatWays(c: Context, s: Search, min: int)
    requires Inv(c, s) && s.st != [] && Scanned(c, s, Top(s), min) && min < s.low[Top(s)]
    requires Numbers(c, Retreat(s, min)) && Stacks(c, Retreat(s, min))
    ensures Ways(c, Retreat(s, min))
  {
    hide Seen, WayBack, WayForth, Covered, Go, DoneClear, RegionsClosed, Game.Valid, Game.Sorted, Scanned;
    RetreatStacks(c, s, min);
    var t := Retreat(s, min);
    forall x: nat | Finished(c, t, x) ensures Seen(c, t, x) && WayBack(c, t, x) { RetreatFinished(c, s, min, x); }
    forall k, x: nat | 0 <= k < |t.st| && Open(c, t, t.st[k]) && Open(c, t, x) && t.num[t.st[k]] < t.num[x]
      ensures WayForth(c, t, t.num[t.st[k]], x)
    {
      RetreatForth(c, s, min, k, x);
    }
    forall k, x: nat | 0 <= k < |t.st| && Between(c, t, k, x) ensures Covered(c, t, t.st[k], x) {
      RetreatCovered(c, s, min, k, x);
    }
  }

  lemma RetreatInv(c: Context, s: Search, min: int)
    requires Inv(c, s) && s.st != [] && Scanned(c, s, Top(s), min) && min < s.low[Top(s)]
    ensures Inv(c, Retreat(s, min)) && Retreat(s, min).st != [] && Open(c, Retreat(s, min), Top(Retreat(s, min)))
  {
    hide Seen, Ways, Go, DoneClear, RegionsClosed, Game.Valid, Game.Sorted, Scanned;
    RetreatStacks(c, s, min);
    RetreatWays(c, s, min);
  }

  // ---------------------------------------------------------------------------------------------------------
  // The root of a component
  // ---------------------------------------------------------------------------------------------------------

  /** The top of the search path has no move to a vertex with a smaller `low`. */
  ghost predicate Root(c: Context, s: Search) {
    Inv(c, s) && s.st != [] && Open(c, s, Top(s)) && Scanned(c, s, Top(s), s.low[Top(s)])
  }

  /** The open vertices visited since the root: the component that is about to be completed. */
  ghost predicate Member(c: Context, s: Search, x: nat)
    requires s.st != [] && Open(c, s, Top(s))
  {
    Open(c, s, x) && s.num[Top(s)] <= s.num[x]
  }

  lemma RootMember(c: Context, s: Search, x: nat)
    requires Root(c, s) && Member(c, s, x)
    ensures s.low[x] >= s.num[Top(s)]
    ensures x != Top(s) ==> Finished(c, s, x) && s.num[Top(s)] < s.num[x]
  {
    hide DoneClear, RegionsClosed, Game.Valid, Game.Sorted, Go, Listed, Link, Seen, WayBack, WayForth;
    var v, m := Top(s), |s.st| - 1;
    if x != v {
      assert s.num[v] < s.num[x];
      assert forall k :: 0 <= k < |s.st| ==> k == m || s.num[s.st[k]] < s.num[s.st[m]];
      assert x !in s.st;
      assert Between(c, s, m, x);
      var ch: nat :| Child(c, s, v, x, ch);
    }
  }

  /** A way from a member to the root inside the component. */
  lemma {:induction false} PathToRoot(c: Context, s: Search, x: nat) returns (w: seq<nat>)
    requires Root(c, s) && Member(c, s, x)
    ensures |w| >= 1 && w[0] == x && w[|w| - 1] == Top(s)
    ensures forall k :: 0 <= k < |w| ==> Member(c, s, w[k])
    ensures forall k :: 0 <= k < |w| - 1 ==> Link(c, w, k)
    decreases s.low[x] - s.num[Top(s)], s.fin[x]
  {
    hide DoneClear, RegionsClosed, Game.Valid, Game.Sorted, Go, Stacks, Seen, WayForth, Covered, Scanned;
    RootMember(c, s, x);
    if x == Top(s) {
      w := [x];
    } else {
      var y: nat :| Back(c, s, x, y);
      assert Member(c, s, y);
      RootMember(c, s, y);
      var r := [y];
      if y != Top(s) {
        assert WayBack(c, s, y);
        r := PathToRoot(c, s, y);
      }
      w := [x] + r;
      forall k | 0 <= k < |w| - 1 ensures Link(c, w, k) {
        if k > 0 { assert Link(c, r, k - 1); }
      }
    }
  }

  lemma MemberForth(c: Context, s: Search, x: nat) returns (y: nat)
    requires Root(c, s) && Member(c, s, x) && x != Top(s)
    ensures Forth(c, s, s.num[Top(s)], x, y) && Member(c, s, y)
  {
    hide DoneClear, RegionsClosed, Game.Valid, Game.Sorted, Go, Stacks, Seen, WayBack, Covered, Scanned;
    RootMember(c, s, x);
    assert WayForth(c, s, s.num[s.st[|s.st| - 1]], x);
    y :| Forth(c, s, s.num[Top(s)], x, y);
  }

  /** A way from the root to a member inside the component. */
  lemma {:induction false} PathFromRoot(c: Context, s: Search, x: nat) returns (w: seq<nat>)
    requires Root(c, s) && Member(c, s, x)
    ensures |w| >= 1 && w[0] == Top(s) && w[|w| - 1] == x
    ensures forall k :: 0 <= k < |w| ==> Member(c, s, w[k])
    ensures forall k :: 0 <= k < |w| - 1 ==> Link(c, w, k)
    decreases s.num[x] - s.num[Top(s)]
  {
    hide DoneClear, Ways, Stacks, Scanned, Move, RegionsClosed, Game.Valid, Game.Sorted;
    if x == Top(s) {
      w := [x];
    } else {
      var y := MemberForth(c, s, x);
      var r := PathFromRoot(c, s, y);
      w := r + [x];
      forall k | 0 <= k < |w| - 1 ensures Link(c, w, k) {
        if k < |r| - 1 { assert Link(c, r, k); }
      }
    }
  }

  // ---------------------------------------------------------------------------------------------------------
  // Completing a component
  // ---------------------------------------------------------------------------------------------------------

  /** The component lies on a cycle: it has another vertex than its root, or the root has a loop. */
  ghost predicate Cyclic(c: Context, s: Search)
    requires Root(c, s)
  {
    Go(c, Top(s), Top(s)) || exists x :: x != Top(s) && Member(c, s, x)
  }

  /** `m` has the highest priority of the component. */
  ghost predicate Highest(c: Context, s: Search, m: nat)
    requires Root(c, s)
  {
    Member(c, s, m) && forall x: nat :: Member(c, s, x) ==> x < c.g.Size() && c.g.priority[x] <= c.g.priority[m]
  }

  lemma LoopLink(c: Context, t: nat)
    requires Scope(c) && Go(c, t, t)
    ensures Link(c, [t, t], 0)
  {
  }

  lemma JoinPaths(c: Context, a: seq<nat>, b: seq<nat>) returns (w: seq<nat>)
    requires Scope(c) && |a| >= 2 && |b| >= 1 && a[|a| - 1] == b[0] && b[|b| - 1] == a[0]
    requires forall k :: 0 <= k < |a| - 1 ==> Link(c, a, k)
    requires forall k :: 0 <= k < |b| - 1 ==> Link(c, b, k)
    ensures w == a + b[1..] && ClosedWalk(c.g, c.dom, c.win, c.str, w)
  {
    hide RegionsClosed, Game.Valid, Game.Sorted, Move;
    w := a + b[1..];
    forall k | 0 <= k < |w| - 1 ensures Move(c.g, c.dom, c.win, c.str, w[k], w[k + 1]) {
      if k < |a| - 1 {
        assert Link(c, a, k);
      } else {
        assert Link(c, b, k - |a| + 1) && w[k] == b[k - |a| + 1] && w[k + 1] == b[k - |a| + 2];
      }
    }
  }

  /** A round trip inside the component through its root and `t`. */
  lemma RoundTrip(c: Context, s: Search, t: nat) returns (w: seq<nat>)
    requires Root(c, s) && Member(c, s, t) && (t != Top(s) || Go(c, t, t))
    ensures ClosedWalk(c.g, c.dom, c.win, c.str, w) && t in w && Top(s) in w
    ensures forall k :: 0 <= k < |w| ==> Member(c, s, w[k])
  {
    hide Ways, Stacks, Scanned, DoneClear, Link, ClosedWalk, Member;
    if t == Top(s) {
      LoopLink(c, t);
      w := JoinPaths(c, [t, t], [t]);
      assert forall k :: 0 <= k < |w| ==> w[k] == t;
    } else {
      var a := PathFromRoot(c, s, t);
      var b := PathToRoot(c, s, t);
      w := JoinPaths(c, a, b);
      assert w[|a| - 1] == t && w[0] == Top(s);
    }
  }

  /** A cyclic component whose highest priority has the parity of `p` refutes the solution. */
  lemma Refutes(c: Context, s: Search, m: nat)
    requires Root(c, s) && Cyclic(c, s) && Highest(c, s, m) && c.g.Parity(m) == c.g.Parity(c.i)
    ensures !CyclesWon(c.g, c.dom, c.win, c.str)
  {
    var v := Top(s);
    var t := v;
    if m != v { t := m; }
    else if z: nat :| z != v && Member(c, s, z) { t := z; }
    var w := RoundTrip(c, s, t);
    var k :| 0 <= k < |w| && w[k] == m;
    assert TopParity(c.g, w, c.g.Parity(c.i)) by {
      assert c.g.Parity(w[k]) == c.g.Parity(c.i);
    }
    assert c.win[w[0]] == c.win[c.i];
    if Won(c.g, c.win, w) { TopParityUnique(c.g, w, c.g.Parity(c.i), c.win[w[0]]); }
  }

  /** No move up to `i` leaves the component and the completed ones. */
  lemma MemberCloses(c: Context, s: Search, x: nat, y: nat)
    requires Root(c, s) && Go(c, x, y) && y <= c.i && Member(c, s, x)
    ensures Member(c, s, y) || s.done[y] == c.p
  {
    hide DoneClear, RegionsClosed, Game.Valid, Game.Sorted, Go, Stacks, WayBack, WayForth, Covered;
    RootMember(c, s, x);
    if x != Top(s) { assert Seen(c, s, x); }
    if s.done[y] != c.p { assert Open(c, s, y) && s.low[y] <= s.num[y]; }
  }

  /** A closed walk through the component lies in it or meets a completed vertex. */
  lemma WalkThroughMember(c: Context, s: Search, w: seq<nat>, x: nat)
    requires Root(c, s) && ClosedWalk(c.g, c.dom, c.win, c.str, w) && Below(w, c.i) && x in w && Member(c, s, x)
    ensures (forall k :: 0 <= k < |w| ==> Member(c, s, w[k])) || (exists z :: z in w && z < |s.done| && s.done[z] == c.p)
  {
    hide Ways, Stacks, DoneClear, Scanned;
    var members := set v | v in w && Member(c, s, v);
    if k :| 0 <= k < |w| - 1 && !Stays(members, w, k) {
      assert Go(c, w[k], w[k + 1]);
      MemberCloses(c, s, w[k], w[k + 1]);
      WalkInside(c.g, c.dom, c.win, c.str, w);
      assert w[k + 1] in w;
    } else {
      WalkStays(members, w);
    }
  }

  /** If the component is acyclic or its highest priority has the other parity, no cycle through it meets priority `p`. */
  lemma MemberClear(c: Context, s: Search, m: nat, x: nat)
    requires Root(c, s) && Highest(c, s, m) && !(Cyclic(c, s) && c.g.Parity(m) == c.g.Parity(c.i))
    requires Member(c, s, x)
    ensures Clear(c, x, c.p)
  {
    forall w | ClosedWalk(c.g, c.dom, c.win, c.str, w) && Below(w, c.i) && x in w
      ensures forall k :: 0 <= k < |w| && w[k] < c.g.Size() ==> c.g.priority[w[k]] != c.p
    {
      WalkThroughMember(c, s, w, x);
      if z :| z in w && z < |s.done| && s.done[z] == c.p {
        assert Clear(c, z, s.done[z]);
      } else if k :| 0 <= k < |w| && w[k] < c.g.Size() && c.g.priority[w[k]] == c.p {
        MembersTop(c, s, m, w, k);
      }
    }
  }

  lemma MembersTop(c: Context, s: Search, m: nat, w: seq<nat>, k: nat)
    requires Root(c, s) && Highest(c, s, m)
    requires ClosedWalk(c.g, c.dom, c.win, c.str, w) && (forall j :: 0 <= j < |w| ==> Member(c, s, w[j]))
    requires k < |w| && w[k] < c.g.Size() && c.g.priority[w[k]] == c.p
    ensures Cyclic(c, s) && c.g.Parity(m) == c.g.Parity(c.i)
  {
    hide Ways, Stacks, DoneClear, Scanned;
    assert m <= c.i && Member(c, s, w[k]);
    assert c.g.priority[m] == c.p;
    assert Go(c, w[0], w[1]) && Member(c, s, w[0]) && Member(c, s, w[1]);
  }

  /** The component leaves the stacks and is marked as done. */
  ghost function Complete(c: Context, s: Search, k: nat): Search
    requires s.st != [] && k <= |s.res|
  {
    s.(done := MarkDone(s.done, s.res[k..], c.p), res := s.res[..k], st := s.st[..|s.st| - 1])
  }

  function MarkDone(done: seq<int>, comp: seq<nat>, p: nat): (d: seq<int>)
    ensures |d| == |done| && forall x :: 0 <= x < |d| ==> d[x] == if x in comp then p else done[x]
  {
    seq(|done|, x requires 0 <= x < |done| => if x in comp then p else done[x])
  }

  /** The members are the suffix of `res` from the root on. */
  lemma MembersListed(c: Context, s: Search, k: nat, x: nat)
    requires Root(c, s) && k < |s.res| && s.res[k] == Top(s)
    ensures x in s.res[k..] <==> Member(c, s, x)
    ensures x in s.res[..k] <==> Open(c, s, x) && !Member(c, s, x)
  {
    hide Ways, Path, DoneClear, Scanned, RegionsClosed, Game.Valid, Game.Sorted;
    if Open(c, s, x) {
      var j :| 0 <= j < |s.res| && s.res[j] == x;
      if j >= k { assert x == s.res[k..][j - k]; } else { assert x == s.res[..k][j]; }
    }
  }

  lemma CompleteOpen(c: Context, s: Search, k: nat)
    requires Root(c, s) && k < |s.res| && s.res[k] == Top(s)
    ensures var t := Complete(c, s, k);
      && Numbers(c, t)
      && (forall x: nat :: Open(c, t, x) <==> Open(c, s, x) && !Member(c, s, x))
      && (forall x: nat :: Member(c, s, x) ==> x < |t.done| && t.done[x] == c.p)
      && (forall x: nat :: x < |t.done| && !Member(c, s, x) ==> t.done[x] == s.done[x])
  {
    hide Ways, Stacks, DoneClear, Scanned, RegionsClosed, Game.Valid, Game.Sorted;
    forall x: nat ensures x in s.res[k..] <==> Member(c, s, x) { MembersListed(c, s, k, x); }
  }

  lemma CompleteListed(c: Context, s: Search, k: nat)
    requires Root(c, s) && k < |s.res| && s.res[k] == Top(s) && Numbers(c, Complete(c, s, k))
    ensures Listed(c, Complete(c, s, k))
  {
    hide Ways, Path, DoneClear, Scanned, RegionsClosed, Game.Valid, Game.Sorted;
    var t := Complete(c, s, k);
    CompleteOpen(c, s, k);
    forall x: nat ensures x in t.res <==> Open(c, t, x) { MembersListed(c, s, k, x); }
  }

  lemma CompleteStacks(c: Context, s: Search, k: nat)
    requires Root(c, s) && k < |s.res| && s.res[k] == Top(s) && Numbers(c, Complete(c, s, k))
    ensures Stacks(c, Complete(c, s, k))
    ensures forall x: nat :: Finished(c, Complete(c, s, k), x) ==> Finished(c, s, x)
  {
    hide Ways, DoneClear, Scanned, RegionsClosed, Game.Valid, Game.Sorted, Go, Listed;
    var t := Complete(c, s, k);
    CompleteListed(c, s, k);
    CompleteOpen(c, s, k);
    forall j | 0 <= j < |t.st| - 1 ensures Link(c, t.st, j) { assert Link(c, s.st, j); }
    hide Link;
    assert forall j :: 0 <= j < |t.st| ==> t.st[j] == s.st[j] && Open(c, s, s.st[j]) && s.num[s.st[j]] < s.num[Top(s)];
  }

  lemma CompleteFinished(c: Context, s: Search, k: nat, x: nat)
    requires Root(c, s) && k < |s.res| && s.res[k] == Top(s) && Numbers(c, Complete(c, s, k))
    requires Finished(c, s, x) && !Member(c, s, x) && Open(c, Complete(c, s, k), x)
    ensures Seen(c, Complete(c, s, k), x) && WayBack(c, Complete(c, s, k), x)
  {
    hide Stacks, DoneClear, Scanned, RegionsClosed, Game.Valid, Game.Sorted, Go, WayForth, Covered;
    var t := Complete(c, s, k);
    CompleteOpen(c, s, k);
    assert Seen(c, s, x);
    var y: nat :| Back(c, s, x, y);
    if Member(c, s, y) { RootMember(c, s, y); }
    assert Back(c, t, x, y);
  }

  lemma CompleteForth(c: Context, s: Search, k: nat, m: int, x: nat)
    requires Root(c, s) && k < |s.res| && s.res[k] == Top(s) && Numbers(c, Complete(c, s, k))
    requires Open(c, s, x) && !Member(c, s, x) && Open(c, Complete(c, s, k), x) && WayForth(c, s, m, x)
    ensures WayForth(c, Complete(c, s, k), m, x)
  {
    hide Stacks, Ways, DoneClear, Scanned, RegionsClosed, Game.Valid, Game.Sorted, Go;
    CompleteOpen(c, s, k);
    var y: nat :| Forth(c, s, m, x, y);
    assert Forth(c, Complete(c, s, k), m, x, y);
  }

  lemma CompleteCovered(c: Context, s: Search, k: nat, j: nat, x: nat)
    requires Root(c, s) && k < |s.res| && s.res[k] == Top(s) && Numbers(c, Complete(c, s, k))
    requires j < |s.st| - 1 && Between(c, Complete(c, s, k), j, x) && Finished(c, s, x) && !Member(c, s, x)
    ensures Covered(c, Complete(c, s, k), s.st[j], x)
  {
    hide Stacks, DoneClear, Scanned, RegionsClosed, Game.Valid, Game.Sorted, Go, Seen, WayBack, WayForth;
    var t := Complete(c, s, k);
    CompleteOpen(c, s, k);
    assert Between(c, s, j, x);
    var ch: nat :| Child(c, s, s.st[j], x, ch);
    if Member(c, s, ch) { RootMember(c, s, ch); }
    assert ch !in t.st;
    assert Child(c, t, s.st[j], x, ch);
  }

  lemma CompleteWays(c: Context, s: Search, k: nat)
    requires Root(c, s) && k < |s.res| && s.res[k] == Top(s) && Numbers(c, Complete(c, s, k))
    ensures Ways(c, Complete(c, s, k))
  {
    hide Seen, WayBack, WayForth, Covered, Go, Stacks, DoneClear, RegionsClosed, Game.Valid, Game.Sorted, Scanned;
    var t := Complete(c, s, k);
    CompleteOpen(c, s, k);
    CompleteStacks(c, s, k);
    forall x: nat | Finished(c, t, x) ensures Seen(c, t, x) && WayBack(c, t, x) { CompleteFinished(c, s, k, x); }
    forall j, x: nat | 0 <= j < |t.st| && Open(c, t, t.st[j]) && Open(c, t, x) && t.num[t.st[j]] < t.num[x]
      ensures WayForth(c, t, t.num[t.st[j]], x)
    {
      CompleteForth(c, s, k, t.num[t.st[j]], x);
    }
    forall j, x: nat | 0 <= j < |t.st| && Between(c, t, j, x) ensures Covered(c, t, t.st[j], x) {
      CompleteCovered(c, s, k, j, x);
    }
  }

  lemma CompleteClear(c: Context, s: Search, k: nat, m: nat)
    requires Root(c, s) && k < |s.res| && s.res[k] == Top(s)
    requires Highest(c, s, m) && !(Cyclic(c, s) && c.g.Parity(m) == c.g.Parity(c.i))
    ensures DoneClear(c, Complete(c, s, k).done)
  {
    hide Clear, Ways, Stacks, RegionsClosed, Game.Valid, Game.Sorted, Scanned, Highest, Cyclic, Member;
    var t := Complete(c, s, k);
    CompleteOpen(c, s, k);
    forall x | 0 <= x < |t.done| ensures Clear(c, x, t.done[x]) {
      if Member(c, s, x) { MemberClear(c, s, m, x); } else { assert Clear(c, x, s.done[x]); }
    }
  }

  lemma CompleteTop(c: Context, s: Search, k: nat)
    requires Root(c, s) && k < |s.res| && s.res[k] == Top(s)
    ensures var t := Complete(c, s, k); if t.st == [] then c.i < |t.done| && t.done[c.i] == c.p else Open(c, t, Top(t))
  {
    hide Clear, Ways, Listed, Link, DoneClear, RegionsClosed, Game.Valid, Game.Sorted, Scanned;
    var t := Complete(c, s, k);
    CompleteOpen(c, s, k);
    if t.st != [] {
      assert Top(t) == s.st[|s.st| - 2];
      assert Open(c, s, Top(t)) && s.num[Top(t)] < s.num[Top(s)];
    } else {
      assert Member(c, s, c.i);
    }
  }

  /** Completing an acyclic component, or one with the right parity, keeps the invariant. */
  lemma CompleteInv(c: Context, s: Search, k: nat, m: nat)
    requires Root(c, s) && k < |s.res| && s.res[k] == Top(s)
    requires Highest(c, s, m) && !(Cyclic(c, s) && c.g.Parity(m) == c.g.Parity(c.i))
    ensures Inv(c, Complete(c, s, k))
    ensures var t := Complete(c, s, k); if t.st == [] then c.i < |t.done| && t.done[c.i] == c.p else Open(c, t, Top(t))
  {
    hide DoneClear, Ways, Stacks, Scanned, Complete;
    CompleteOpen(c, s, k);
    CompleteStacks(c, s, k);
    CompleteWays(c, s, k);
    CompleteClear(c, s, k, m);
    CompleteTop(c, s, k);
  }
}
