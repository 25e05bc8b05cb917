/** Building the incoming edges of a game from its outgoing edges, by counting (game.cpp). */
module InEdges {
  import opened ParityGames
  import opened GameArrays

  function Count(edges: seq<nat>, v: nat): nat {
    multiset(edges)[v]
  }

  function Copies(u: nat, k: nat): (s: seq<nat>)
    ensures |s| == k && forall i :: 0 <= i < k ==> s[i] == u
  {
    seq(k, _ => u)
  }

  /** The predecessors of `v` among the first `u` vertices, the last one first. */
  function InList(outs: seq<seq<nat>>, u: nat, v: nat): seq<nat>
    requires u <= |outs|
  {
    if u == 0 then [] else Copies(u - 1, Count(outs[u - 1], v)) + InList(outs, u - 1, v)
  }

  lemma {:induction false} InListCount(outs: seq<seq<nat>>, n: nat, v: nat, u: nat)
    requires n <= |outs|
    ensures multiset(InList(outs, n, v))[u] == if u < n then Count(outs[u], v) else 0
  {
    if n > 0 {
      InListCount(outs, n - 1, v, u);
      CopiesCount(n - 1, Count(outs[n - 1], v), u);
    }
  }

  lemma {:induction false} CopiesCount(u: nat, k: nat, x: nat)
    ensures multiset(Copies(u, k))[x] == if x == u then k else 0
  {
    if k > 0 {
      CopiesCount(u, k - 1, x);
      assert Copies(u, k) == [u] + Copies(u, k - 1);
    }
  }

  lemma {:induction false} InListGrows(outs: seq<seq<nat>>, u: nat, n: nat, v: nat)
    requires u <= n <= |outs|
    ensures |InList(outs, u, v)| <= |InList(outs, n, v)|
    decreases n - u
  {
    if u < n { InListGrows(outs, u, n - 1, v); }
  }

  // ---------------------------------------------------------------------------------------------------------
  // Segments
  // ---------------------------------------------------------------------------------------------------------

  /** The lists of the first `v` vertices, each with its end mark, take up this much. */
  function Start(degree: seq<nat>, v: nat): nat
    requires v <= |degree|
  {
    if v == 0 then 0 else Start(degree, v - 1) + degree[v - 1] + 1
  }

  lemma {:induction false} StartGrows(degree: seq<nat>, v: nat, w: nat)
    requires v < w <= |degree|
    ensures Start(degree, v) + degree[v] < Start(degree, w)
    decreases w
  {
    if v < w - 1 { StartGrows(degree, v, w - 1); }
  }

  function Total(outs: seq<seq<nat>>, u: nat): nat
    requires u <= |outs|
  {
    if u == 0 then 0 else Total(outs, u - 1) + |outs[u - 1]|
  }

  function Sum(s: seq<nat>): nat {
    if s == [] then 0 else Sum(s[..|s| - 1]) + s[|s| - 1]
  }

  function Counts(edges: seq<nat>, n: nat): (s: seq<nat>)
    ensures |s| == n && forall v :: 0 <= v < n ==> s[v] == Count(edges, v)
  {
    seq(n, v requires 0 <= v => Count(edges, v))
  }

  lemma {:induction false} SumAdd(a: seq<nat>, b: seq<nat>, c: seq<nat>)
    requires |a| == |b| == |c| && forall v :: 0 <= v < |a| ==> c[v] == a[v] + b[v]
    ensures Sum(c) == Sum(a) + Sum(b)
  {
    if a != [] { SumAdd(a[..|a| - 1], b[..|a| - 1], c[..|a| - 1]); }
  }

  lemma {:induction false} SumUnit(s: seq<nat>, x: nat)
    requires x < |s| && forall v :: 0 <= v < |s| ==> s[v] == if v == x then 1 else 0
    ensures Sum(s) == 1
  {
    if x == |s| - 1 { SumZero(s[..|s| - 1]); } else { SumUnit(s[..|s| - 1], x); }
  }

  lemma {:induction false} SumZero(s: seq<nat>)
    requires forall v :: 0 <= v < |s| ==> s[v] == 0
    ensures Sum(s) == 0
  {
    if s != [] { SumZero(s[..|s| - 1]); }
  }

  /** Counting the edges of a list by their targets counts them all. */
  lemma {:induction false} SumCounts(edges: seq<nat>, n: nat)
    requires forall k :: 0 <= k < |edges| ==> edges[k] < n
    ensures Sum(Counts(edges, n)) == |edges|
  {
    if edges == [] {
      SumZero(Counts(edges, n));
    } else {
      var rest, x := edges[..|edges| - 1], edges[|edges| - 1];
      SumCounts(rest, n);
      assert edges == rest + [x];
      SumUnit(Counts([x], n), x);
      SumAdd(Counts(rest, n), Counts([x], n), Counts(edges, n));
    }
  }

  function Degrees(outs: seq<seq<nat>>, u: nat, n: nat): (s: seq<nat>)
    requires u <= |outs|
    ensures |s| == n && forall v :: 0 <= v < n ==> s[v] == |InList(outs, u, v)|
  {
    seq(n, v requires 0 <= v => |InList(outs, u, v)|)
  }

  lemma {:induction false} SumDegrees(outs: seq<seq<nat>>, u: nat, n: nat)
    requires u <= |outs| && forall x, k :: 0 <= x < |outs| && 0 <= k < |outs[x]| ==> outs[x][k] < n
    ensures Sum(Degrees(outs, u, n)) == Total(outs, u)
  {
    if u == 0 {
      SumZero(Degrees(outs, u, n));
    } else {
      SumDegrees(outs, u - 1, n);
      SumCounts(outs[u - 1], n);
      SumAdd(Degrees(outs, u - 1, n), Counts(outs[u - 1], n), Degrees(outs, u, n));
    }
  }

  lemma {:induction false} StartSum(degree: seq<nat>, v: nat)
    requires v <= |degree|
    ensures Start(degree, v) == Sum(degree[..v]) + v
  {
    if v > 0 {
      StartSum(degree, v - 1);
      assert degree[..v][..v - 1] == degree[..v - 1];
    }
  }

  /** The segments fill the array exactly. */
  lemma SegmentsFill(outs: seq<seq<nat>>)
    requires forall x, k :: 0 <= x < |outs| && 0 <= k < |outs[x]| ==> outs[x][k] < |outs|
    ensures Start(Degrees(outs, |outs|, |outs|), |outs|) == |outs| + Total(outs, |outs|)
  {
    var degree := Degrees(outs, |outs|, |outs|);
    SumDegrees(outs, |outs|, |outs|);
    StartSum(degree, |outs|);
    assert degree[..|outs|] == degree;
  }

  /** The segment that ends at `end` holds `list` from `first` on. */
  ghost predicate Segment(inedges: seq<int>, first: nat, end: nat, list: seq<nat>) {
    && first + |list| == end < |inedges| && inedges[end] == -1
    && forall k :: 0 <= k < |list| ==> inedges[first + k] == list[k]
  }

  lemma {:induction false} SegmentRow(inedges: seq<int>, first: nat, end: nat, list: seq<nat>)
    requires Segment(inedges, first, end, list)
    ensures Row(inedges, first) == list
    decreases |list|
  {
    if list != [] {
      assert inedges[first + 0] == list[0];
      forall k | 0 <= k < |list[1..]| ensures inedges[first + 1 + k] == list[1..][k] { assert inedges[first + (k + 1)] == list[k + 1]; }
      SegmentRow(inedges, first + 1, end, list[1..]);
    }
  }

  // ---------------------------------------------------------------------------------------------------------
  // The counting sort
  // ---------------------------------------------------------------------------------------------------------

  /** The rows of the edge array, each of which ends with its mark. */
  ghost predicate RowsAre(edges: seq<int>, firstouts: seq<nat>, outs: seq<seq<nat>>) {
    && |firstouts| == |outs|
    && (forall v :: 0 <= v < |outs| ==> Segment(edges, firstouts[v], firstouts[v] + |outs[v]|, outs[v]))
    && (forall v, k :: 0 <= v < |outs| && 0 <= k < |outs[v]| ==> outs[v][k] < |outs|)
  }

  /** The predecessors of `v` when all vertices below `u` and the edges `done` of `u` have been entered. */
  function Entered(outs: seq<seq<nat>>, u: nat, done: seq<nat>, v: nat): seq<nat>
    requires u <= |outs|
  {
    Copies(u, Count(done, v)) + InList(outs, u, v)
  }

  lemma EnteredNone(outs: seq<seq<nat>>, u: nat, v: nat)
    requires u <= |outs|
    ensures Entered(outs, u, [], v) == InList(outs, u, v)
  {
  }

  lemma EnteredRow(outs: seq<seq<nat>>, u: nat, v: nat)
    requires u < |outs|
    ensures Entered(outs, u, outs[u], v) == InList(outs, u + 1, v)
  {
  }

  /** One more edge of `u` enters one predecessor, in front. */
  lemma EnteredNext(outs: seq<seq<nat>>, u: nat, k: nat, v: nat)
    requires u < |outs| && k < |outs[u]|
    ensures Entered(outs, u, outs[u][..k + 1], v) ==
      if v == outs[u][k] then [u] + Entered(outs, u, outs[u][..k], v) else Entered(outs, u, outs[u][..k], v)
    ensures v == outs[u][k] ==> |Entered(outs, u, outs[u][..k], v)| < |InList(outs, |outs|, v)|
  {
    var done := outs[u][..k];
    assert outs[u][..k + 1] == done + [outs[u][k]];
    if v == outs[u][k] {
      assert Copies(u, Count(done, v) + 1) == [u] + Copies(u, Count(done, v));
      assert outs[u] == outs[u][..k + 1] + outs[u][k + 1..];
      InListGrows(outs, u + 1, |outs|, v);
    }
  }

  lemma SegmentPush(s: seq<int>, first: nat, end: nat, list: seq<nat>, u: nat)
    requires Segment(s, first, end, list) && first > 0
    ensures Segment(s[first - 1 := u], first - 1, end, [u] + list)
  {
  }

  lemma SegmentKept(s: seq<int>, first: nat, end: nat, list: seq<nat>, p: nat, x: int)
    requires Segment(s, first, end, list) && p < |s| && (p < first || p > end)
    ensures Segment(s[p := x], first, end, list)
  {
  }

  /** The list entered so far for `v`, at the end of its segment. */
  ghost predicate FilledAt(outs: seq<seq<nat>>, u: nat, done: seq<nat>, degree: seq<nat>, inedges: seq<int>, first: nat, v: nat)
    requires u <= |outs| == |degree| && v < |outs|
  {
    Segment(inedges, first, Start(degree, v) + degree[v], Entered(outs, u, done, v))
  }

  ghost predicate Filled(outs: seq<seq<nat>>, u: nat, done: seq<nat>, degree: seq<nat>, inedges: seq<int>, firstins: seq<nat>)
    requires u <= |outs| == |degree|
  {
    |firstins| == |outs| && forall v :: 0 <= v < |outs| ==> FilledAt(outs, u, done, degree, inedges, firstins[v], v)
  }

  lemma FilledNext(outs: seq<seq<nat>>, u: nat, k: nat, degree: seq<nat>, inedges: seq<int>, firstins: seq<nat>)
    requires u < |outs| && k < |outs[u]| && outs[u][k] < |outs| && degree == Degrees(outs, |outs|, |outs|)
    requires Filled(outs, u, outs[u][..k], degree, inedges, firstins)
    ensures |firstins| == |outs| && 0 < firstins[outs[u][k]] <= |inedges|
    ensures Filled(outs, u, outs[u][..k + 1], degree, inedges[firstins[outs[u][k]] - 1 := u],
      firstins[outs[u][k] := firstins[outs[u][k]] - 1])
  {
    var to := outs[u][k];
    var first := firstins[to];
    FilledNextRoom(outs, u, k, degree, inedges, firstins);
    var firstins' := firstins[to := first - 1];
    hide Filled, FilledAt, Start, Degrees, Entered;
    forall v | 0 <= v < |outs| ensures FilledAt(outs, u, outs[u][..k + 1], degree, inedges[first - 1 := u], firstins'[v], v) {
      FilledNextAt(outs, u, k, degree, inedges, firstins, v);
    }
    FilledAll(outs, u, outs[u][..k + 1], degree, inedges[first - 1 := u], firstins');
  }

  lemma FilledAll(outs: seq<seq<nat>>, u: nat, done: seq<nat>, degree: seq<nat>, inedges: seq<int>, firstins: seq<nat>)
    requires u <= |outs| == |degree| == |firstins|
    requires forall v :: 0 <= v < |outs| ==> FilledAt(outs, u, done, degree, inedges, firstins[v], v)
    ensures Filled(outs, u, done, degree, inedges, firstins)
  {
    hide FilledAt;
  }

  lemma FilledNextRoom(outs: seq<seq<nat>>, u: nat, k: nat, degree: seq<nat>, inedges: seq<int>, firstins: seq<nat>)
    requires u < |outs| && k < |outs[u]| && outs[u][k] < |outs| && degree == Degrees(outs, |outs|, |outs|)
    requires Filled(outs, u, outs[u][..k], degree, inedges, firstins)
    ensures |firstins| == |outs| && 0 < firstins[outs[u][k]] <= |inedges|
  {
    hide FilledAt, Start, Degrees, Entered;
    FilledRoom(outs, u, k, degree, inedges, firstins[outs[u][k]]);
  }

  lemma FilledNextAt(outs: seq<seq<nat>>, u: nat, k: nat, degree: seq<nat>, inedges: seq<int>, firstins: seq<nat>, v: nat)
    requires u < |outs| && k < |outs[u]| && outs[u][k] < |outs| && degree == Degrees(outs, |outs|, |outs|)
    requires Filled(outs, u, outs[u][..k], degree, inedges, firstins) && |firstins| == |outs| && v < |outs|
    requires 0 < firstins[outs[u][k]] <= |inedges|
    ensures FilledAt(outs, u, outs[u][..k + 1], degree, inedges[firstins[outs[u][k]] - 1 := u],
      firstins[outs[u][k] := firstins[outs[u][k]] - 1][v], v)
  {
    hide FilledAt, Start, Degrees, Entered;
    var to := outs[u][k];
    assert FilledAt(outs, u, outs[u][..k], degree, inedges, firstins[to], to);
    assert FilledAt(outs, u, outs[u][..k], degree, inedges, firstins[v], v);
    if v == to {
      EnteredNext(outs, u, k, to);
      FilledPush(outs, u, outs[u][..k], outs[u][..k + 1], to, degree, inedges, firstins[to]);
    } else {
      FilledOther(outs, u, k, degree, inedges, firstins[to], firstins[v], v);
    }
  }

  lemma FilledPush(outs: seq<seq<nat>>, u: nat, done: seq<nat>, done': seq<nat>, to: nat, degree: seq<nat>, inedges: seq<int>, first: nat)
    requires u < |outs| == |degree| && to < |outs| && 0 < first <= |inedges|
    requires FilledAt(outs, u, done, degree, inedges, first, to)
    requires Entered(outs, u, done', to) == [u] + Entered(outs, u, done, to)
    ensures FilledAt(outs, u, done', degree, inedges[first - 1 := u], first - 1, to)
  {
    hide Segment, Start, Entered;
    SegmentPush(inedges, first, Start(degree, to) + degree[to], Entered(outs, u, done, to), u);
  }

  lemma FilledOther(outs: seq<seq<nat>>, u: nat, k: nat, degree: seq<nat>, inedges: seq<int>, first: nat, first': nat, v: nat)
    requires u < |outs| && k < |outs[u]| && outs[u][k] < |outs| && degree == Degrees(outs, |outs|, |outs|)
    requires v < |outs| && v != outs[u][k] && 0 < first <= |inedges|
    requires FilledAt(outs, u, outs[u][..k], degree, inedges, first, outs[u][k])
    requires FilledAt(outs, u, outs[u][..k], degree, inedges, first', v)
    ensures FilledAt(outs, u, outs[u][..k + 1], degree, inedges[first - 1 := u], first', v)
  {
    hide Segment, Start, Entered;
    EnteredNext(outs, u, k, v);
    FilledRoom(outs, u, k, degree, inedges, first);
    FilledFrom(outs, u, k, degree, inedges, first', v);
    if v < outs[u][k] { StartGrows(degree, v, outs[u][k]); } else { StartGrows(degree, outs[u][k], v); }
    SegmentKept(inedges, first', Start(degree, v) + degree[v], Entered(outs, u, outs[u][..k], v), first - 1, u);
  }

  lemma FilledRoom(outs: seq<seq<nat>>, u: nat, k: nat, degree: seq<nat>, inedges: seq<int>, first: nat)
    requires u < |outs| && k < |outs[u]| && outs[u][k] < |outs| && degree == Degrees(outs, |outs|, |outs|)
    requires FilledAt(outs, u, outs[u][..k], degree, inedges, first, outs[u][k])
    ensures Start(degree, outs[u][k]) < first <= Start(degree, outs[u][k]) + degree[outs[u][k]] < |inedges|
  {
    hide Start, Entered;
    EnteredNext(outs, u, k, outs[u][k]);
  }

  lemma FilledFrom(outs: seq<seq<nat>>, u: nat, k: nat, degree: seq<nat>, inedges: seq<int>, first: nat, v: nat)
    requires u < |outs| && k < |outs[u]| && v < |outs| && degree == Degrees(outs, |outs|, |outs|)
    requires FilledAt(outs, u, outs[u][..k], degree, inedges, first, v)
    ensures Start(degree, v) <= first
  {
    hide Start, Entered;
    EnteredFits(outs, u, k, degree, v);
  }

  lemma EnteredFits(outs: seq<seq<nat>>, u: nat, k: nat, degree: seq<nat>, v: nat)
    requires u < |outs| && k < |outs[u]| && v < |outs| && degree == Degrees(outs, |outs|, |outs|)
    ensures |Entered(outs, u, outs[u][..k], v)| <= degree[v]
  {
    assert outs[u] == outs[u][..k] + outs[u][k..];
    InListGrows(outs, u + 1, |outs|, v);
  }

  lemma RowAt(edges: seq<int>, firstouts: seq<nat>, outs: seq<seq<nat>>, u: nat, k: nat)
    requires RowsAre(edges, firstouts, outs) && u < |outs| && k <= |outs[u]|
    ensures |firstouts| == |outs| && firstouts[u] + k < |edges|
    ensures if k < |outs[u]| then edges[firstouts[u] + k] == outs[u][k] < |outs| else edges[firstouts[u] + k] == -1
  {
    assert Segment(edges, firstouts[u], firstouts[u] + |outs[u]|, outs[u]);
  }

  /** How many edges lead to each vertex. */
  ghost predicate Counted(outs: seq<seq<nat>>, u: nat, done: seq<nat>, incount: seq<nat>)
    requires u <= |outs|
  {
    |incount| == |outs| && forall v :: 0 <= v < |outs| ==> incount[v] == |Entered(outs, u, done, v)|
  }

  lemma CountedNext(outs: seq<seq<nat>>, u: nat, k: nat, incount: seq<nat>)
    requires u < |outs| && k < |outs[u]| && outs[u][k] < |outs| && Counted(outs, u, outs[u][..k], incount)
    ensures Counted(outs, u, outs[u][..k + 1], incount[outs[u][k] := incount[outs[u][k]] + 1])
  {
    hide Entered;
    var done', incount' := outs[u][..k + 1], incount[outs[u][k] := incount[outs[u][k]] + 1];
    forall v | 0 <= v < |outs| ensures incount'[v] == |Entered(outs, u, done', v)| {
      EnteredNext(outs, u, k, v);
    }
  }

  lemma CountedRow(outs: seq<seq<nat>>, u: nat, incount: seq<nat>)
    requires u < |outs| && Counted(outs, u, outs[u][..|outs[u]|], incount)
    ensures Counted(outs, u + 1, [], incount)
  {
    hide Entered;
    assert outs[u][..|outs[u]|] == outs[u];
    forall v | 0 <= v < |outs| ensures incount[v] == |Entered(outs, u + 1, [], v)| {
      EnteredRow(outs, u, v);
      EnteredNone(outs, u + 1, v);
    }
  }

  lemma CountedAll(outs: seq<seq<nat>>, incount: seq<nat>)
    requires Counted(outs, |outs|, [], incount)
    ensures incount == Degrees(outs, |outs|, |outs|)
  {
    forall v | 0 <= v < |outs| ensures incount[v] == |InList(outs, |outs|, v)| { EnteredNone(outs, |outs|, v); }
  }

  method CountIncoming(outedges: array<int>, firstouts: array<nat>, ghost outs: seq<seq<nat>>) returns (incount: array<nat>)
    requires RowsAre(outedges[..], firstouts[..], outs)
    ensures fresh(incount) && incount[..] == Degrees(outs, |outs|, |outs|)
  {
    hide RowsAre, Counted, Degrees;
    RowsLength(outedges[..], firstouts[..], outs);
    incount := new nat[firstouts.Length](_ => 0);
    CountedZero(outs, incount[..]);
    var v := 0;
    while v < firstouts.Length
      invariant 0 <= v <= |outs| && incount.Length == |outs| && Counted(outs, v, [], incount[..])
    {
      var curedge := firstouts[v];
      ghost var k := 0;
      RowAt(outedges[..], firstouts[..], outs, v, 0);
      assert outs[v][..0] == [];
      while outedges[curedge] != -1
        invariant 0 <= k <= |outs[v]| && curedge == firstouts[v] + k < outedges.Length
        invariant if k < |outs[v]| then outedges[curedge] == outs[v][k] < |outs| else outedges[curedge] == -1
        invariant incount.Length == |outs| && Counted(outs, v, outs[v][..k], incount[..])
        decreases |outs[v]| - k
      {
        var to := outedges[curedge];
        CountedNext(outs, v, k, incount[..]);
        incount[to] := incount[to] + 1;
        k := k + 1;
        RowAt(outedges[..], firstouts[..], outs, v, k);
        curedge := curedge + 1;
      }
      CountedRow(outs, v, incount[..]);
      v := v + 1;
    }
    CountedAll(outs, incount[..]);
  }

  lemma CountedZero(outs: seq<seq<nat>>, incount: seq<nat>)
    requires |incount| == |outs| && forall v :: 0 <= v < |outs| ==> incount[v] == 0
    ensures Counted(outs, 0, [], incount)
  {
    forall v | 0 <= v < |outs| ensures |Entered(outs, 0, [], v)| == 0 { EnteredNone(outs, 0, v); }
  }

  /** Lay out the segments, with their end marks. */
  method LayOut(size: nat, incount: array<nat>, ghost outs: seq<seq<nat>>) returns (inedges: array<int>, firstins: array<nat>)
    requires incount[..] == Degrees(outs, |outs|, |outs|) && size == Start(Degrees(outs, |outs|, |outs|), |outs|)
    ensures fresh(inedges) && fresh(firstins) && inedges.Length == size && firstins.Length == |outs|
    ensures Filled(outs, 0, [], Degrees(outs, |outs|, |outs|), inedges[..], firstins[..])
  {
    hide Degrees, Start, Laid;
    ghost var degree := incount[..];
    var n := incount.Length;
    inedges := new int[size];
    firstins := new nat[n];
    StartZero(degree);
    NothingLaid(degree, inedges[..], firstins[..]);
    var pos, v := 0, 0;
    while v < n
      invariant 0 <= v <= n && pos == Start(degree, v)
      invariant Laid(degree, inedges[..], firstins[..], v)
    {
      StartGrows(degree, v, n);
      StartNext(degree, v);
      LaidNext(degree, inedges[..], firstins[..], v);
      firstins[v] := pos + incount[v];
      inedges[firstins[v]] := -1;
      pos := pos + (incount[v] + 1);
      v := v + 1;
    }
    LaidFilled(outs, degree, inedges[..], firstins[..]);
  }

  /** The marks of the first `v` segments are in place. */
  ghost predicate Laid(degree: seq<nat>, inedges: seq<int>, firstins: seq<nat>, v: nat) {
    && |firstins| == |degree| && v <= |degree|
    && forall w :: 0 <= w < v ==> firstins[w] == Start(degree, w) + degree[w] < |inedges| && inedges[firstins[w]] == -1
  }

  lemma NothingLaid(degree: seq<nat>, inedges: seq<int>, firstins: seq<nat>)
    requires |firstins| == |degree|
    ensures Laid(degree, inedges, firstins, 0)
  {
  }

  lemma LaidNext(degree: seq<nat>, inedges: seq<int>, firstins: seq<nat>, v: nat)
    requires Laid(degree, inedges, firstins, v) && v < |degree| && Start(degree, v) + degree[v] < |inedges|
    ensures var first := Start(degree, v) + degree[v];
      Laid(degree, inedges[first := -1], firstins[v := first], v + 1)
  {
    forall w | 0 <= w < v ensures Start(degree, w) + degree[w] < Start(degree, v) { StartGrows(degree, w, v); }
  }

  lemma LaidFilled(outs: seq<seq<nat>>, degree: seq<nat>, inedges: seq<int>, firstins: seq<nat>)
    requires degree == Degrees(outs, |outs|, |outs|) && Laid(degree, inedges, firstins, |degree|)
    ensures Filled(outs, 0, [], degree, inedges, firstins)
  {
    hide Degrees, Start, Entered;
    forall w | 0 <= w < |outs| ensures FilledAt(outs, 0, [], degree, inedges, firstins[w], w) { EnteredNone(outs, 0, w); }
  }

  lemma StartZero(degree: seq<nat>)
    ensures Start(degree, 0) == 0
  {
  }

  lemma StartNext(degree: seq<nat>, v: nat)
    requires v < |degree|
    ensures Start(degree, v + 1) == Start(degree, v) + degree[v] + 1
  {
  }

  /** Enter vertex `u` as a predecessor of its successors. */
  method EnterRow(outedges: array<int>, firstouts: array<nat>, inedges: array<int>, firstins: array<nat>, u: nat, ghost outs: seq<seq<nat>>)
    requires RowsAre(outedges[..], firstouts[..], outs) && u < |outs|
    requires inedges != outedges && firstins != firstouts
    requires Filled(outs, u, [], Degrees(outs, |outs|, |outs|), inedges[..], firstins[..])
    modifies inedges, firstins
    ensures Filled(outs, u + 1, [], Degrees(outs, |outs|, |outs|), inedges[..], firstins[..])
  {
    hide RowsAre, Filled, Degrees;
    ghost var degree := Degrees(outs, |outs|, |outs|);
    RowAt(outedges[..], firstouts[..], outs, u, 0);
    var curedge := firstouts[u];
    ghost var k := 0;
    assert outs[u][..0] == [];
    while outedges[curedge] != -1
      invariant 0 <= k <= |outs[u]| && curedge == firstouts[u] + k < outedges.Length
      invariant if k < |outs[u]| then outedges[curedge] == outs[u][k] < |outs| else outedges[curedge] == -1
      invariant Filled(outs, u, outs[u][..k], degree, inedges[..], firstins[..])
      decreases |outs[u]| - k
    {
      var to := outedges[curedge];
      FilledNext(outs, u, k, degree, inedges[..], firstins[..]);
      FilledLength(outs, u, outs[u][..k], degree, inedges[..], firstins[..]);
      firstins[to] := firstins[to] - 1;
      inedges[firstins[to]] := u;
      k := k + 1;
      RowAt(outedges[..], firstouts[..], outs, u, k);
      curedge := curedge + 1;
    }
    FilledRow(outs, u, degree, inedges[..], firstins[..]);
  }

  lemma FilledLength(outs: seq<seq<nat>>, u: nat, done: seq<nat>, degree: seq<nat>, inedges: seq<int>, firstins: seq<nat>)
    requires u <= |outs| == |degree| && Filled(outs, u, done, degree, inedges, firstins)
    ensures |firstins| == |outs|
  {
  }

  lemma FilledRow(outs: seq<seq<nat>>, u: nat, degree: seq<nat>, inedges: seq<int>, firstins: seq<nat>)
    requires u < |outs| == |degree| && Filled(outs, u, outs[u][..|outs[u]|], degree, inedges, firstins)
    ensures Filled(outs, u + 1, [], degree, inedges, firstins)
  {
    hide Entered, Segment, Start;
    assert outs[u][..|outs[u]|] == outs[u];
    forall v | 0 <= v < |outs| ensures FilledAt(outs, u + 1, [], degree, inedges, firstins[v], v) {
      assert FilledAt(outs, u, outs[u], degree, inedges, firstins[v], v);
      EnteredRow(outs, u, v);
      EnteredNone(outs, u + 1, v);
    }
  }

  lemma FilledOne(outs: seq<seq<nat>>, degree: seq<nat>, inedges: seq<int>, firstins: seq<nat>, v: nat)
    requires |outs| == |degree| && Filled(outs, |outs|, [], degree, inedges, firstins) && v < |outs|
    ensures |firstins| == |outs| && FilledAt(outs, |outs|, [], degree, inedges, firstins[v], v)
  {
  }

  /** What the finished segments amount to. */
  lemma AllFilled(outs: seq<seq<nat>>, degree: seq<nat>, inedges: seq<int>, first: nat, v: nat)
    requires degree == Degrees(outs, |outs|, |outs|) && v < |outs| && FilledAt(outs, |outs|, [], degree, inedges, first, v)
    ensures Row(inedges, first) == InList(outs, |outs|, v)
    ensures first == Start(degree, v) && degree[v] == |InList(outs, |outs|, v)|
    ensures first + degree[v] < |inedges| && inedges[first + degree[v]] == -1
  {
    hide Start, InList, Row;
    EnteredNone(outs, |outs|, v);
    SegmentRow(inedges, first, Start(degree, v) + degree[v], InList(outs, |outs|, v));
  }

  /** The incoming edges: every list ends with its mark, lists the predecessors with their multiplicities, and the lists
      fill the array without gaps. */
  ghost predicate Transposed(outs: seq<seq<nat>>, inedges: seq<int>, firstins: seq<nat>, incount: seq<nat>) {
    && |firstins| == |incount| == |outs|
    && (forall v :: 0 <= v < |outs| ==> incount[v] == |Row(inedges, firstins[v])|)
    && (forall u: nat, v: nat :: v < |outs| ==> ListedAsOften(outs, inedges, firstins[v], u, v))
    && (|outs| > 0 ==> firstins[0] == 0)
    && (forall v :: 0 <= v < |outs| ==> firstins[v] + incount[v] < |inedges| && inedges[firstins[v] + incount[v]] == -1)
    && (forall v: nat :: v < |outs| ==> Followed(inedges, firstins, incount, v))
  }

  /** The list at `first` has as many entries `u` as there are edges from `u` to `v`. */
  ghost predicate ListedAsOften(outs: seq<seq<nat>>, inedges: seq<int>, first: nat, u: nat, v: nat) {
    multiset(Row(inedges, first))[u] == if u < |outs| then multiset(outs[u])[v] else 0
  }

  /** The list of the next vertex, or the end of the array, comes right after the mark of the list of `v`. */
  ghost predicate Followed(inedges: seq<int>, firstins: seq<nat>, incount: seq<nat>, v: nat)
    requires v < |firstins| == |incount|
  {
    firstins[v] + incount[v] + 1 == if v + 1 < |firstins| then firstins[v + 1] else |inedges|
  }

  lemma AllTransposed(outs: seq<seq<nat>>, inedges: seq<int>, firstins: seq<nat>, incount: seq<nat>)
    requires incount == Degrees(outs, |outs|, |outs|) && Filled(outs, |outs|, [], incount, inedges, firstins)
    requires |inedges| == Start(incount, |outs|)
    ensures Transposed(outs, inedges, firstins, incount)
  {
    hide Filled, FilledAt, Start, InList, Row, Degrees, Followed;
    FilledLength(outs, |outs|, [], incount, inedges, firstins);
    forall v | 0 <= v < |outs|
      ensures Row(inedges, firstins[v]) == InList(outs, |outs|, v) && incount[v] == |InList(outs, |outs|, v)|
      ensures firstins[v] == Start(incount, v)
      ensures firstins[v] + incount[v] < |inedges| && inedges[firstins[v] + incount[v]] == -1
    {
      FilledOne(outs, incount, inedges, firstins, v);
      AllFilled(outs, incount, inedges, firstins[v], v);
    }
    forall v: nat | v < |outs| ensures Followed(inedges, firstins, incount, v) {
      StartsFollow(incount, inedges, firstins, v);
    }
    forall u: nat, v: nat | v < |outs| ensures ListedAsOften(outs, inedges, firstins[v], u, v) {
      InListCount(outs, |outs|, v, u);
    }
    StartZero(incount);
  }

  lemma StartsFollow(incount: seq<nat>, inedges: seq<int>, firstins: seq<nat>, v: nat)
    requires v < |incount| == |firstins| && |inedges| == Start(incount, |incount|)
    requires forall w :: 0 <= w < |firstins| ==> firstins[w] == Start(incount, w)
    ensures Followed(inedges, firstins, incount, v)
  {
    StartNext(incount, v);
  }

  /** With the incoming edges built, the arrays hold a game in the sense of the solvers. */
  lemma TransposedGame(priority: seq<nat>, owner: seq<Player>, outs: seq<seq<nat>>, inedges: seq<int>, firstins: seq<nat>, incount: seq<nat>)
    requires |priority| == |owner| == |outs| && Transposed(outs, inedges, firstins, incount)
    requires forall x, k :: 0 <= x < |outs| && 0 <= k < |outs[x]| ==> outs[x][k] < |outs|
    ensures Game(priority, owner, outs, seq(|outs|, v requires 0 <= v < |outs| => Row(inedges, firstins[v]))).Valid()
  {
    var g := Game(priority, owner, outs, seq(|outs|, v requires 0 <= v < |outs| => Row(inedges, firstins[v])));
    hide Row;
    forall v, k | 0 <= v < g.Size() && 0 <= k < |g.ins[v]| ensures g.ins[v][k] < g.Size() {
      var u: nat, w: nat := g.ins[v][k], v;
      assert multiset(g.ins[v])[u] > 0;
      assert ListedAsOften(outs, inedges, firstins[w], u, w);
    }
    forall u, v | 0 <= u < g.Size() && 0 <= v < g.Size() ensures multiset(g.ins[v])[u] == multiset(g.outs[u])[v] {
      assert ListedAsOften(outs, inedges, firstins[v], u, v);
    }
  }

  /** Build the incoming edges. */
  method BuildInArray(outedges: array<int>, firstouts: array<nat>, ghost outs: seq<seq<nat>>)
    returns (inedges: array<int>, firstins: array<nat>, incount: array<nat>)
    requires RowsAre(outedges[..], firstouts[..], outs) && outedges.Length == |outs| + Total(outs, |outs|)
    ensures fresh(inedges) && fresh(firstins) && fresh(incount) && inedges.Length == outedges.Length
    ensures Transposed(outs, inedges[..], firstins[..], incount[..])
  {
    hide RowsAre, Start, InList, Segment, Entered, Degrees, Filled, FilledAt, Transposed;
    var n := firstouts.Length;
    RowsLength(outedges[..], firstouts[..], outs);
    RowsInside(outedges[..], firstouts[..], outs);
    SegmentsFill(outs);
    ghost var degree := Degrees(outs, n, n);
    incount := CountIncoming(outedges, firstouts, outs);
    inedges, firstins := LayOut(outedges.Length, incount, outs);
    var v := 0;
    while v < n
      invariant 0 <= v <= n && Filled(outs, v, [], degree, inedges[..], firstins[..]) && incount[..] == degree
    {
      EnterRow(outedges, firstouts, inedges, firstins, v, outs);
      v := v + 1;
    }
    AllTransposed(outs, inedges[..], firstins[..], incount[..]);
  }

  lemma RowsInside(edges: seq<int>, firstouts: seq<nat>, outs: seq<seq<nat>>)
    requires RowsAre(edges, firstouts, outs)
    ensures forall x, k :: 0 <= x < |outs| && 0 <= k < |outs[x]| ==> outs[x][k] < |outs|
  {
  }

  lemma RowsLength(edges: seq<int>, firstouts: seq<nat>, outs: seq<seq<nat>>)
    requires RowsAre(edges, firstouts, outs)
    ensures |firstouts| == |outs|
  {
  }
}
