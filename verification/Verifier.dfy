/** Verifier::verify: local checks followed by repeated searches for components in which the loser wins. */
module Verifier {
  import opened ParityGames
  import opened Solutions
  import opened VerifierSearch

  /** `Accepted` for a normal return, otherwise the exception. */
  datatype Verdict =
    | Accepted
    | NotEveryVertexWon
    | NoStrategy
    | InvalidMove
    | StrategyLeavesDominion
    | LoserCanEscape
    | LoserHasStrategy
    | LoserCanWin

  /** The solved vertices whose winner is being checked. */
  function Checked(solved: seq<bool>, win: seq<Player>, even: bool, odd: bool): set<nat>
    requires |solved| == |win|
  {
    set v: nat | v < |solved| && solved[v] && (if win[v] == 0 then even else odd)
  }

  ghost predicate LocallyOk(g: Game, solved: seq<bool>, win: seq<Player>, str: seq<int>, u: nat)
    requires g.Valid() && |solved| == |win| == |str| == g.Size() && u < g.Size()
  {
    if win[u] == g.owner[u] then
      str[u] >= 0 && g.Edge(u, str[u]) && str[u] < g.Size() && solved[str[u]] && win[str[u]] == win[u]
    else
      str[u] == -1 && forall v :: 0 <= v < g.Size() && g.Edge(u, v) ==> solved[v] && win[v] == win[u]
  }

  /** No strategy is stored for a vertex that its owner loses. */
  ghost predicate LosersIdle(g: Game, dom: set<nat>, win: seq<Player>, str: seq<int>)
    requires Shape(g, dom, win, str)
  {
    forall u :: u in dom && win[u] != g.owner[u] ==> str[u] == -1
  }

  /** The local checks decide closedness of the checked part. */
  lemma LocalChecks(g: Game, solved: seq<bool>, win: seq<Player>, str: seq<int>, even: bool, odd: bool)
    requires g.Valid() && |solved| == |win| == |str| == g.Size()
    ensures var dom := Checked(solved, win, even, odd);
      && Shape(g, dom, win, str)
      && ((forall u :: u in dom ==> LocallyOk(g, solved, win, str, u)) <==>
            RegionsClosed(g, dom, win, str) && LosersIdle(g, dom, win, str)
            && (forall u, v :: u in dom && win[u] != g.owner[u] && g.Edge(u, v) ==> v in dom))
  {
    var dom := Checked(solved, win, even, odd);
    forall u: nat, v: nat | u in dom && g.Edge(u, v) ensures v < g.Size() { EdgeInside(g, u, v); }
  }

  /** The edges of a vertex without strategy. */
  method ScanEdges(g: Game, i: nat, prio: nat, bot: int, done: array<int>, low: array<int>, v: nat)
    returns (pushed: bool, to: nat, min: int)
    requires g.Valid() && v < g.Size() && done.Length == low.Length == g.Size()
    ensures pushed ==> g.Edge(v, to) && to < g.Size() && to <= i && done[to] != prio && low[to] <= bot
    ensures !pushed ==> forall y :: 0 <= y < g.Size() && g.Edge(v, y) && y <= i ==>
      done[y] == prio || (low[y] > bot && min <= low[y])
    ensures min <= low[v]
    ensures min == low[v] || exists y :: 0 <= y <= i && y < g.Size() && g.Edge(v, y) && done[y] != prio && low[y] > bot && low[y] == min
  {
    pushed, to, min := false, 0, low[v];
    var k := 0;
    while k < |g.outs[v]| && !pushed
      invariant k <= |g.outs[v]|
      invariant pushed ==> g.Edge(v, to) && to < g.Size() && to <= i && done[to] != prio && low[to] <= bot
      invariant !pushed ==> forall j :: 0 <= j < k && g.outs[v][j] <= i ==>
        done[g.outs[v][j]] == prio || (low[g.outs[v][j]] > bot && min <= low[g.outs[v][j]])
      invariant min <= low[v]
      invariant min == low[v] || exists y :: 0 <= y <= i && y < g.Size() && g.Edge(v, y) && done[y] != prio && low[y] > bot && low[y] == min
    {
      var t := g.outs[v][k];
      if t > i {
      } else if done[t] == prio {
      } else if low[t] <= bot {
        pushed, to := true, t;
      } else if low[t] < min {
        min := low[t];
        assert g.Edge(v, t);
      }
      k := k + 1;
    }
  }

  /** All moves from `v`: pick an unvisited one, or find the least `low` among the visited ones. */
  method Scan(g: Game, strategy: seq<int>, i: nat, prio: nat, bot: int, done: array<int>, low: array<int>, v: nat,
              ghost c: Context, ghost s: Search)
    returns (pushed: bool, to: nat, min: int)
    requires Scope(c) && Numbers(c, s) && Open(c, s, v) && RegionsIdle(c)
    requires c.g == g && c.str == strategy && c.i == i && c.p == prio && c.bot == bot
    requires s.low == low[..] && s.done == done[..]
    ensures if pushed
      then Go(c, v, to) && to <= i && done[to] != prio && low[to] <= bot
      else Scanned(c, s, v, min) && min <= low[v]
  {
    hide Game.Sorted;
    pushed, to, min := false, 0, low[v];
    if strategy[v] != -1 {
      var t := strategy[v];
      assert Go(c, v, t);
      if t > i {
      } else if done[t] == prio {
      } else if low[t] <= bot {
        pushed, to := true, t;
      } else if low[t] < min {
        min := low[t];
        assert Open(c, s, t);
      }
    } else {
      pushed, to, min := ScanEdges(g, i, prio, bot, done, low, v);
      if !pushed && min != low[v] {
        var y: nat :| y <= i && y < g.Size() && g.Edge(v, y) && done[y] != prio && low[y] > bot && low[y] == min;
        assert Open(c, s, y) && Go(c, v, y);
      }
    }
  }

  /** After the local checks the successors the search considers are exactly the moves. */
  ghost predicate RegionsIdle(c: Context)
    requires Scope(c)
  {
    && LosersIdle(c.g, c.dom, c.win, c.str)
    && forall u, v :: u in c.dom && c.win[u] != c.g.owner[u] && c.g.Edge(u, v) ==> v in c.dom
  }

  /** Mark the component of `v`, the vertices of `res` from `v` on, as done; find its size and highest priority. */
  method MarkComponent(g: Game, res: seq<nat>, v: nat, done: array<int>, prio: nat, ghost k: nat)
    returns (maxPrio: int, size: nat, ghost top: nat)
    requires g.Valid() && done.Length == g.Size() && (forall j :: 0 <= j < |res| ==> res[j] < g.Size())
    requires k < |res| && res[k] == v && (forall j :: k < j < |res| ==> res[j] != v)
    modifies done
    ensures done[..] == MarkDone(old(done[..]), res[k..], prio)
    ensures size == |res| - k
    ensures top in res[k..] && maxPrio == g.priority[top]
    ensures forall x :: x in res[k..] ==> g.priority[x] <= maxPrio
  {
    maxPrio, size := -1, 0;
    top := v;
    var j := |res|;
    var found := false;
    while j > 0 && !found
      invariant k <= j <= |res| && size == |res| - j && (found <==> j == k)
      invariant forall x :: 0 <= x < g.Size() ==> done[x] == if x in res[j..] then prio else old(done[x])
      invariant j < |res| ==> top in res[j..] && maxPrio == g.priority[top]
      invariant forall x :: x in res[j..] ==> g.priority[x] <= maxPrio
      invariant j == |res| ==> maxPrio == -1
    {
      j := j - 1;
      var n := res[j];
      assert res[j..] == [n] + res[j + 1..];
      if g.priority[n] > maxPrio {
        maxPrio, top := g.priority[n], n;
      }
      size := size + 1;
      done[n] := prio;
      found := n == v;
    }
  }

  method PopComponent(res: seq<nat>, v: nat, ghost k: nat) returns (r: seq<nat>)
    requires k < |res| && res[k] == v && (forall j :: k < j < |res| ==> res[j] != v)
    ensures r == res[..k]
  {
    r := res;
    var found := false;
    while !found
      invariant k <= |r| <= |res| && r == res[..|r|] && (found <==> |r| == k)
      decreases |r|
    {
      found := r[|r| - 1] == v;
      r := r[..|r| - 1];
    }
  }

  /** The vertices that this search may still push. */
  ghost function Unvisited(c: Context, s: Search): set<nat> {
    set x: nat | x < |s.low| && s.low[x] <= c.bot && x !in s.st
  }

  lemma VisitMeasure(c: Context, s: Search)
    requires Inv(c, s) && s.st != [] && !Open(c, s, Top(s))
    ensures Top(s) < |s.low| && Top(s) < |s.num| && Unvisited(c, Visit(s)) == Unvisited(c, s)
  {
    hide Ways, DoneClear;
  }

  lemma PushMeasure(c: Context, s: Search, to: nat)
    requires Inv(c, s) && s.st != [] && Open(c, s, Top(s))
    requires to < |s.low| && s.low[to] <= c.bot
    ensures |Unvisited(c, Push(s, to))| == |Unvisited(c, s)| - 1
  {
    hide Ways, DoneClear, Listed;
    assert forall k :: 0 <= k < |s.st| ==> Open(c, s, s.st[k]);
    assert to in Unvisited(c, s);
    assert Unvisited(c, Push(s, to)) == Unvisited(c, s) - {to};
  }

  lemma PopMeasure(c: Context, s: Search, t: Search)
    requires s.st != [] && Open(c, s, Top(s)) && t.st == s.st[..|s.st| - 1] && |t.low| == |s.low|
    requires forall x :: 0 <= x < |s.low| ==> (t.low[x] <= c.bot <==> s.low[x] <= c.bot)
    ensures Unvisited(c, t) == Unvisited(c, s)
  {
    assert forall x: nat :: x in s.st <==> x in t.st || x == Top(s);
  }

  lemma RootIndex(c: Context, s: Search) returns (k: nat)
    requires Inv(c, s) && s.st != [] && Open(c, s, Top(s))
    ensures k < |s.res| && s.res[k] == Top(s) && (forall j :: k < j < |s.res| ==> s.res[j] != Top(s))
    ensures forall j :: 0 <= j < |s.res| ==> s.res[j] < c.g.Size()
  {
    hide Ways, DoneClear, Path;
    assert Top(s) in s.res;
    k :| 0 <= k < |s.res| && s.res[k] == Top(s);
  }

  /** Size, loops and priorities of the suffix of `res` decide whether the component is cyclic and who wins it. */
  lemma ComponentMeaning(c: Context, s: Search, k: nat, top: nat, cycles: bool)
    requires Root(c, s) && RegionsIdle(c) && k < |s.res| && s.res[k] == Top(s)
    requires top in s.res[k..] && forall x :: x in s.res[k..] ==> x < c.g.Size() && c.g.priority[x] <= c.g.priority[top]
    requires cycles <==> |s.res| - k > 1 || c.str[Top(s)] == Top(s) || (c.str[Top(s)] == -1 && c.g.Edge(Top(s), Top(s)))
    ensures Highest(c, s, top) && (Cyclic(c, s) <==> cycles)
  {
    forall x: nat ensures x in s.res[k..] <==> Member(c, s, x) { MembersListed(c, s, k, x); }
    OtherMember(c, s, k);
    hide Ways, DoneClear, Path, Scanned, Member, Numbers, Stacks;
  }

  /** The component has another member exactly if its part of `res` is longer than one. */
  lemma OtherMember(c: Context, s: Search, k: nat)
    requires Root(c, s) && k < |s.res| && s.res[k] == Top(s)
    requires forall x: nat :: x in s.res[k..] <==> Member(c, s, x)
    ensures |s.res| - k > 1 <==> exists x :: x != Top(s) && Member(c, s, x)
  {
    hide Ways, DoneClear, Scanned, Member;
    if |s.res| - k > 1 {
      assert s.num[s.res[k]] < s.num[s.res[k + 1]];
      assert s.res[k + 1] in s.res[k..];
    }
    if x: nat :| x != Top(s) && Member(c, s, x) {
      assert x in s.res[k..];
    }
  }

  /** The root of a component: refute the strategies, or complete the component. */
  method FinishComponent(g: Game, strategy: seq<int>, prio: nat, done: array<int>, res: seq<nat>, v: nat,
                         ghost c: Context, ghost s: Search)
    returns (ok: bool, res': seq<nat>, ghost t: Search)
    requires Root(c, s) && RegionsIdle(c) && v == Top(s)
    requires c.g == g && c.str == strategy && c.p == prio && s.done == done[..] && s.res == res
    modifies done
    ensures !ok ==> !CyclesWon(g, c.dom, c.win, strategy)
    ensures ok ==> Inv(c, t) && t == s.(done := done[..], res := res', st := s.st[..|s.st| - 1])
    ensures ok && t.st == [] ==> c.i < |t.done| && t.done[c.i] == prio
  {
    ghost var k := RootIndex(c, s);
    hide Inv, Scanned, Member;
    var maxPrio, size; ghost var top;
    maxPrio, size, top := MarkComponent(g, res, v, done, prio, k);
    var cycles := size > 1 || strategy[v] == v || (strategy[v] == -1 && g.Edge(v, v));
    ComponentMeaning(c, s, k, top, cycles);
    hide Root, Highest, Cyclic;
    t := Complete(c, s, k);
    ok := !(cycles && maxPrio % 2 == prio % 2);
    res' := res;
    if !ok {
      Refutes(c, s, top);
    } else {
      CompleteInv(c, s, k, top);
      res' := PopComponent(res, v, k);
    }
  }

  lemma RetreatMeasure(c: Context, s: Search, min: int)
    requires Inv(c, s) && s.st != [] && Scanned(c, s, Top(s), min) && min < s.low[Top(s)]
    ensures Unvisited(c, Retreat(s, min)) == Unvisited(c, s)
  {
    hide Ways, DoneClear, Stacks;
    assert min > c.bot;
    PopMeasure(c, s, Retreat(s, min));
  }

  lemma FinalFacts(c: Context, s: Search)
    requires Inv(c, s)
    ensures Scope(c) && Numbers(c, s) && DoneClear(c, s.done)
  {
  }

  lemma TopFacts(c: Context, s: Search)
    requires Inv(c, s) && s.st != []
    ensures Scope(c) && Numbers(c, s) && |s.low| == |s.done| == |s.num| == |s.fin| == c.g.Size()
    ensures Top(s) < c.g.Size() && (Open(c, s, Top(s)) <==> s.low[Top(s)] > c.bot)
  {
    hide Ways, DoneClear;
  }

  /** Number the top of the path when it is seen for the first time. */
  method VisitTop(low: array<int>, bot: int, v: nat, res: seq<nat>, pre: int, ghost c: Context, ghost s: Search)
    returns (res': seq<nat>, pre': int, ghost t: Search)
    requires Inv(c, s) && s.st != [] && v == Top(s) && c.bot == bot
    requires s.low == low[..] && s.res == res && s.pre == pre
    modifies low
    ensures Inv(c, t) && Open(c, t, v) && Unvisited(c, t) == Unvisited(c, s)
    ensures t == s.(low := low[..], res := res', pre := pre', num := t.num)
  {
    TopFacts(c, s);
    res', pre', t := res, pre, s;
    if low[v] <= bot {
      VisitMeasure(c, s);
      VisitInv(c, s);
      hide Inv, Open, Unvisited;
      t := Visit(s);
      pre' := pre + 1;
      low[v] := pre';
      res' := res + [v];
    }
  }

  /** One turn of the search: visit the top of the path, then push, retreat or finish a component. */
  method Turn(g: Game, strategy: seq<int>, i: nat, prio: nat, bot: int, done: array<int>, low: array<int>,
              res: seq<nat>, st: seq<nat>, pre: int, ghost c: Context, ghost s: Search)
    returns (ok: bool, res': seq<nat>, st': seq<nat>, pre': int, ghost t: Search)
    requires done != low && s == Search(low[..], done[..], res, st, pre, s.num, s.fin, s.clock)
    requires c.g == g && c.str == strategy && c.i == i && c.p == prio && c.bot == bot
    requires Inv(c, s) && Scope(c) && RegionsIdle(c) && st != []
    modifies done, low
    ensures if ok
      then Inv(c, t) && t == Search(low[..], done[..], res', st', pre', t.num, t.fin, t.clock)
      else !CyclesWon(g, c.dom, c.win, strategy)
    ensures ok ==> 2 * |Unvisited(c, t)| + |st'| < 2 * |Unvisited(c, s)| + |st|
    ensures ok && st' == [] ==> i < done.Length && done[i] == prio
  {
    hide Inv, Open, Numbers, Scanned, RegionsIdle, Unvisited;
    ok, st' := true, st;
    var v := st[|st| - 1];
    res', pre', t := VisitTop(low, bot, v, res, pre, c, s);
    TopFacts(c, t);
    var pushed, to, min := Scan(g, strategy, i, prio, bot, done, low, v, c, t);
    if pushed {
      PushMeasure(c, t, to);
      PushInv(c, t, to);
      st' := st + [to];
      t := Push(t, to);
    } else if min < low[v] {
      RetreatInv(c, t, min);
      RetreatMeasure(c, t, min);
      t := Retreat(t, min);
      low[v] := min;
      st' := st[..|st| - 1];
    } else {
      ghost var u := t;
      ok, res', t := FinishComponent(g, strategy, prio, done, res', v, c, u);
      if ok {
        PopMeasure(c, u, t);
        st' := st[..|st| - 1];
      }
    }
  }

  /** One search from `i` at priority `prio`. A component in which the loser wins refutes the strategies; otherwise all
      that was visited is done, and no cycle up to `i` through a done vertex meets the priority it is done at. */
  method SearchFrom(g: Game, strategy: seq<int>, i: nat, prio: nat, done: array<int>, low: array<int>, pre0: int,
                    ghost c: Context, ghost s0: Search)
    returns (ok: bool, pre: int, ghost s: Search)
    requires done != low && s0 == Search(low[..], done[..], [], [i], pre0, s0.num, s0.fin, s0.clock)
    requires c.g == g && c.str == strategy && c.i == i && c.p == prio && c.bot == pre0
    requires Inv(c, s0) && RegionsIdle(c)
    modifies done, low
    ensures ok ==> s == Search(low[..], done[..], s.res, s.st, pre, s.num, s.fin, s.clock) && Numbers(c, s)
    ensures if ok then i < done.Length && done[i] == prio && DoneClear(c, done[..]) else !CyclesWon(g, c.dom, c.win, strategy)
  {
    FinalFacts(c, s0);
    hide Inv, RegionsIdle, Unvisited, Numbers;
    pre, s, ok := pre0, s0, true;
    var res: seq<nat> := [];
    var st: seq<nat> := [i];
    while st != []
      invariant s == Search(low[..], done[..], res, st, pre, s.num, s.fin, s.clock)
      invariant Inv(c, s)
      invariant st == [] ==> i < done.Length && done[i] == prio
      decreases 2 * |Unvisited(c, s)| + |st|
    {
      ok, res, st, pre, s := Turn(g, strategy, i, prio, pre0, done, low, res, st, pre, c, s);
      if !ok { return; }
    }
    FinalFacts(c, s);
  }

  // ---------------------------------------------------------------------------------------------------------
  // The whole verification
  // ---------------------------------------------------------------------------------------------------------

  method HasEscape(g: Game, solved: seq<bool>, win: seq<Player>, u: nat) returns (escape: bool)
    requires g.Valid() && |solved| == |win| == g.Size() && u < g.Size()
    ensures escape <==> exists v :: 0 <= v < g.Size() && g.Edge(u, v) && !(solved[v] && win[v] == win[u])
  {
    escape := false;
    var k := 0;
    while k < |g.outs[u]| && !escape
      invariant k <= |g.outs[u]|
      invariant escape ==> exists v :: 0 <= v < g.Size() && g.Edge(u, v) && !(solved[v] && win[v] == win[u])
      invariant !escape ==> forall j :: 0 <= j < k ==> solved[g.outs[u][j]] && win[g.outs[u][j]] == win[u]
    {
      var to := g.outs[u][k];
      if !solved[to] || win[to] != win[u] {
        assert g.Edge(u, to);
        escape := true;
      }
      k := k + 1;
    }
  }

  /** There is a move to a vertex that is not known to be won by the same player. */
  ghost predicate CanLeave(g: Game, solved: seq<bool>, win: seq<Player>, u: nat)
    requires g.Valid() && |solved| == |win| == g.Size() && u < g.Size()
  {
    exists v :: 0 <= v < g.Size() && g.Edge(u, v) && !(solved[v] && win[v] == win[u])
  }

  /** What each verdict says of the vertex it is about. */
  ghost predicate Explains(g: Game, solved: seq<bool>, win: seq<Player>, str: seq<int>, u: nat, verdict: Verdict)
    requires g.Valid() && |solved| == |win| == |str| == g.Size() && u < g.Size()
  {
    match verdict
    case Accepted => LocallyOk(g, solved, win, str, u)
    case NoStrategy => win[u] == g.owner[u] && str[u] == -1
    case InvalidMove => win[u] == g.owner[u] && str[u] != -1 && !(str[u] >= 0 && g.Edge(u, str[u]))
    case StrategyLeavesDominion =>
      && win[u] == g.owner[u] && str[u] >= 0 && g.Edge(u, str[u])
      && str[u] < g.Size() && !(solved[str[u]] && win[str[u]] == win[u])
    case LoserCanEscape => win[u] != g.owner[u] && CanLeave(g, solved, win, u)
    case LoserHasStrategy => win[u] != g.owner[u] && !CanLeave(g, solved, win, u) && str[u] != -1
    case _ => false
  }

  /** The first loop of the verification stops at `u` with this verdict. */
  ghost predicate Faulty(g: Game, solved: seq<bool>, win: seq<Player>, str: seq<int>, fullgame: bool, dom: set<nat>, u: nat,
                         verdict: Verdict)
    requires g.Valid() && |solved| == |win| == |str| == g.Size() && u < g.Size()
  {
    if !solved[u] then fullgame && verdict == NotEveryVertexWon
    else u in dom && verdict != Accepted && Explains(g, solved, win, str, u, verdict)
  }

  ghost predicate FaultFree(g: Game, solved: seq<bool>, win: seq<Player>, str: seq<int>, fullgame: bool, dom: set<nat>, u: nat)
    requires g.Valid() && |solved| == |win| == |str| == g.Size() && u < g.Size()
  {
    (fullgame ==> solved[u]) && (u in dom ==> LocallyOk(g, solved, win, str, u))
  }

  /** The verdict is that of the least vertex that has a fault. */
  ghost predicate FirstFault(g: Game, solved: seq<bool>, win: seq<Player>, str: seq<int>, fullgame: bool, dom: set<nat>,
                             verdict: Verdict)
    requires g.Valid() && |solved| == |win| == |str| == g.Size()
  {
    exists u :: 0 <= u < g.Size() && Faulty(g, solved, win, str, fullgame, dom, u, verdict)
      && forall x :: 0 <= x < u ==> FaultFree(g, solved, win, str, fullgame, dom, x)
  }

  /** The checks on a single vertex, in the order of the source. */
  method CheckVertex(g: Game, solved: seq<bool>, win: seq<Player>, str: seq<int>, u: nat) returns (verdict: Verdict)
    requires g.Valid() && |solved| == |win| == |str| == g.Size() && u < g.Size()
    ensures verdict.Accepted? <==> LocallyOk(g, solved, win, str, u)
    ensures verdict != NotEveryVertexWon && verdict != LoserCanWin
    ensures verdict.NoStrategy? <==> win[u] == g.owner[u] && str[u] == -1
    ensures verdict.InvalidMove? <==> win[u] == g.owner[u] && str[u] != -1 && !(str[u] >= 0 && g.Edge(u, str[u]))
    ensures verdict.LoserCanEscape? <==> win[u] != g.owner[u] && CanLeave(g, solved, win, u)
    ensures verdict.LoserHasStrategy? <==> win[u] != g.owner[u] && !CanLeave(g, solved, win, u) && str[u] != -1
    ensures forall w :: Explains(g, solved, win, str, u, w) <==> w == verdict
  {
    if win[u] == g.owner[u] {
      if str[u] == -1 { return NoStrategy; }
      if !(str[u] >= 0 && g.Edge(u, str[u])) { return InvalidMove; }
      EdgeInside(g, u, str[u]);
      if !solved[str[u]] || win[str[u]] != win[u] { return StrategyLeavesDominion; }
    } else {
      var escape := HasEscape(g, solved, win, u);
      if escape { return LoserCanEscape; }
      if str[u] != -1 { return LoserHasStrategy; }
    }
    return Accepted;
  }

  /** The state in which the search from `i` starts. */
  lemma StartInv(c: Context, s: Search)
    requires Scope(c) && s.res == [] && s.st == [c.i] && s.pre == c.bot
    requires |s.low| == |s.done| == |s.num| == |s.fin| == c.g.Size()
    requires forall x :: 0 <= x < c.g.Size() ==> s.low[x] <= s.pre && s.fin[x] <= s.clock
    requires s.done[c.i] != c.p && DoneClear(c, s.done)
    ensures Inv(c, s)
  {
    assert forall x: nat :: !Open(c, s, x);
  }

  /** All closed walks that reach index `i` or beyond are won. */
  ghost predicate WonFrom(g: Game, dom: set<nat>, win: seq<Player>, str: seq<int>, i: int)
    requires Shape(g, dom, win, str)
  {
    forall w :: ClosedWalk(g, dom, win, str, w) && !Below(w, i - 1) ==> Won(g, win, w)
  }

  ghost predicate ClearBelow(g: Game, dom: set<nat>, win: seq<Player>, str: seq<int>, i: int, done: seq<int>)
    requires Shape(g, dom, win, str)
  {
    forall x :: 0 <= x < |done| ==> ClearUpTo(g, dom, win, str, i - 1, x, done[x])
  }

  lemma ClearNarrows(g: Game, dom: set<nat>, win: seq<Player>, str: seq<int>, i: int, done: seq<int>)
    requires Shape(g, dom, win, str) && ClearBelow(g, dom, win, str, i + 1, done)
    ensures ClearBelow(g, dom, win, str, i, done)
  {
    forall x | 0 <= x < |done| ensures ClearUpTo(g, dom, win, str, i - 1, x, done[x]) {
      assert ClearUpTo(g, dom, win, str, i, x, done[x]);
      assert forall w :: Below(w, i - 1) ==> Below(w, i);
    }
  }

  /** A vertex outside the checked part, won by the parity of its priority, or done at its own priority is on top of no
      lost cycle. */
  lemma WonFromNext(g: Game, dom: set<nat>, win: seq<Player>, str: seq<int>, i: nat)
    requires Shape(g, dom, win, str) && RegionsClosed(g, dom, win, str) && g.Sorted()
    requires i < g.Size() && WonFrom(g, dom, win, str, i + 1)
    requires i in dom ==> win[i] == g.Parity(i) || ClearUpTo(g, dom, win, str, i, i, g.priority[i])
    ensures WonFrom(g, dom, win, str, i)
  {
    forall w | ClosedWalk(g, dom, win, str, w) && !Below(w, i - 1) ensures Won(g, win, w) {
      if Below(w, i) {
        WalkInside(g, dom, win, str, w);
        var k :| 0 <= k < |w| && w[k] > i - 1;
        assert w[k] == i;
        WalkKeepsWinner(g, dom, win, str, w, k);
        assert i in w;
        if win[i] == g.Parity(i) {
          WonAtTop(g, win, w, k);
        }
      }
    }
  }

  /** The repeated search decides whether all cycles of closed regions are won. */
  method CheckCycles(g: Game, solved: seq<bool>, win: seq<Player>, str: seq<int>, even: bool, odd: bool, ghost dom: set<nat>)
    returns (ok: bool)
    requires g.Valid() && g.Sorted() && |solved| == |win| == |str| == g.Size()
    requires dom == Checked(solved, win, even, odd) && Shape(g, dom, win, str)
    requires RegionsClosed(g, dom, win, str) && LosersIdle(g, dom, win, str)
    requires forall u, v :: u in dom && win[u] != g.owner[u] && g.Edge(u, v) ==> v in dom
    ensures ok <==> CyclesWon(g, dom, win, str)
  {
    var n: int := g.Size();
    var done := new int[n](_ => -1);
    var low := new int[n](_ => 0);
    var pre := 0;
    ghost var num: seq<int>, fin: seq<nat>, clock: nat := seq(n, _ => 0), seq(n, _ => 0), 0;
    ok := true;
    forall w | ClosedWalk(g, dom, win, str, w) ensures Below(w, n - 1) { WalkInside(g, dom, win, str, w); }
    for i := n downto 0
      invariant |num| == |fin| == n
      invariant forall x :: 0 <= x < n ==> low[x] <= pre && fin[x] <= clock
      invariant ClearBelow(g, dom, win, str, i, done[..])
      invariant WonFrom(g, dom, win, str, i)
    {
      var prio := g.priority[i];
      var checked := solved[i] && (if win[i] == 0 then even else odd);
      if checked && win[i] != g.Parity(i) && done[i] != prio {
        ghost var c := Context(g, dom, win, str, i, prio, pre);
        ghost var s := Search(low[..], done[..], [], [i], pre, num, fin, clock);
        StartInv(c, s);
        ok, pre, s := SearchFrom(g, str, i, prio, done, low, pre, c, s);
        if !ok { return; }
        num, fin, clock := s.num, s.fin, s.clock;
        assert Clear(c, i, done[..][i]);
      }
      assert checked && win[i] != g.Parity(i) ==> ClearUpTo(g, dom, win, str, i, i, done[..][i]);
      WonFromNext(g, dom, win, str, i);
      ClearNarrows(g, dom, win, str, i, done[..]);
    }
  }

  lemma WholeGame(g: Game, solved: seq<bool>, win: seq<Player>, str: seq<int>)
    requires g.Valid() && |solved| == |win| == |str| == g.Size()
    requires forall u :: 0 <= u < g.Size() ==> solved[u]
    ensures Checked(solved, win, true, true) == Vertices(g)
    ensures Shape(g, Vertices(g), win, str)
    ensures PartialSolution(g, Vertices(g), win, str) <==> CorrectSolution(g, Vertices(g), win, str)
  {
    forall u: nat, v: nat | u in Vertices(g) && g.Edge(u, v) ensures v in Vertices(g) { EdgeInside(g, u, v); }
  }

  /** Verify a full or partial solution. It is accepted exactly when the checked part is a union of dominions with
      winning strategies, no losing vertex has a strategy, and, for full games, every vertex is solved. */
  method Verify(g: Game, solved: seq<bool>, win: seq<Player>, str: seq<int>, fullgame: bool, even: bool, odd: bool)
    returns (verdict: Verdict)
    requires g.Valid() && g.Sorted() && |solved| == |win| == |str| == g.Size()
    ensures var dom := Checked(solved, win, even, odd);
      && Shape(g, dom, win, str)
      && (verdict.Accepted? <==>
            && (fullgame ==> forall u :: 0 <= u < g.Size() ==> solved[u])
            && PartialSolution(g, dom, win, str) && LosersIdle(g, dom, win, str))
      && (fullgame && even && odd ==>
            (verdict.Accepted? <==>
              && (forall u :: 0 <= u < g.Size() ==> solved[u])
              && Shape(g, Vertices(g), win, str)
              && CorrectSolution(g, Vertices(g), win, str) && LosersIdle(g, Vertices(g), win, str)))
      && (verdict.LoserCanWin? ==> RegionsClosed(g, dom, win, str) && !CyclesWon(g, dom, win, str))
      && (verdict.NotEveryVertexWon? ==> fullgame && exists u :: 0 <= u < g.Size() && !solved[u])
      && (verdict.LoserCanWin? <==>
            && (forall u :: 0 <= u < g.Size() ==> FaultFree(g, solved, win, str, fullgame, dom, u))
            && !CyclesWon(g, dom, win, str))
      && (!verdict.Accepted? && !verdict.LoserCanWin? ==> FirstFault(g, solved, win, str, fullgame, dom, verdict))
  {
    ghost var dom := Checked(solved, win, even, odd);
    LocalChecks(g, solved, win, str, even, odd);
    if forall u :: 0 <= u < g.Size() ==> solved[u] { WholeGame(g, solved, win, str); }
    for i := 0 to g.Size()
      invariant forall u :: 0 <= u < i ==> fullgame ==> solved[u]
      invariant forall u :: 0 <= u < i && u in dom ==> LocallyOk(g, solved, win, str, u)
      invariant forall u :: 0 <= u < i ==> FaultFree(g, solved, win, str, fullgame, dom, u)
    {
      if !solved[i] {
        if fullgame {
          assert Faulty(g, solved, win, str, fullgame, dom, i, NotEveryVertexWon);
          assert !FaultFree(g, solved, win, str, fullgame, dom, i);
          return NotEveryVertexWon;
        }
      } else if if win[i] == 0 then even else odd {
        var v := CheckVertex(g, solved, win, str, i);
        if v != Accepted {
          assert Faulty(g, solved, win, str, fullgame, dom, i, v);
          assert !FaultFree(g, solved, win, str, fullgame, dom, i);
          return v;
        }
      }
    }
    var ok := CheckCycles(g, solved, win, str, even, odd, dom);
    return if ok then Accepted else LoserCanWin;
  }
}
