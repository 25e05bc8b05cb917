/** The recursive solver of zlkpp.cpp on its shared, mutable current game. */
module ZLKPPSolver {
  import opened ParityGames
  import opened Solutions
  import opened EdgeCounting
  import opened LinkedNodes
  import opened Zielonka
  import opened AttractorCounting

  lemma {:induction false} DistinctCount(s: seq<nat>)
    requires Distinct(s)
    ensures |Elements(s)| == |s|
  {
    if s != [] {
      var t := s[..|s| - 1];
      DistinctCount(t);
      assert Elements(s) == Elements(t) + {s[|s| - 1]};
    }
  }

  ghost predicate Distinct(s: seq<nat>) {
    forall j, k :: 0 <= j < k < |s| ==> s[j] != s[k]
  }

  lemma {:induction false} UnlinkAllRing(c: set<nat>, l: Links, s: seq<nat>)
    requires Ring(c, l) && Distinct(s) && Elements(s) <= c
    ensures |UnlinkAll(l, s).next| == |UnlinkAll(l, s).prev| == |l.next|
    ensures Ring(c - Elements(s), UnlinkAll(l, s))
    ensures forall x :: 0 <= x < |l.next| && x !in c ==>
      UnlinkAll(l, s).next[x] == l.next[x] && UnlinkAll(l, s).prev[x] == l.prev[x]
  {
    if s == [] {
      assert c - Elements(s) == c;
    } else {
      var t, v := s[..|s| - 1], s[|s| - 1];
      ElementsSnoc(s);
      UnlinkAllRing(c, l, t);
      UnlinkRing(c - Elements(t), UnlinkAll(l, t), v);
      assert c - Elements(s) == c - Elements(t) - {v};
    }
  }

  lemma ElementsSnoc(s: seq<nat>)
    requires s != [] && Distinct(s)
    ensures Elements(s) == Elements(s[..|s| - 1]) + {s[|s| - 1]} && s[|s| - 1] !in Elements(s[..|s| - 1])
  {
    assert s == s[..|s| - 1] + [s[|s| - 1]];
  }

  lemma NextElement(c: set<nat>, l: Links, s: seq<nat>, i: nat)
    requires Distinct(s) && i < |s| && Elements(s) <= c
    ensures s[i] in c - Elements(s[..i]) && c - Elements(s[..i + 1]) == c - Elements(s[..i]) - {s[i]}
    ensures UnlinkAll(l, s[..i + 1]) == Unlink(UnlinkAll(l, s[..i]), s[i])
  {
    assert s[..i + 1] == s[..i] + [s[i]];
    assert s[..i + 1][..i] == s[..i];
  }

  lemma NoElements(c: set<nat>, l: Links, s: seq<nat>)
    ensures c - Elements(s[..0]) == c && UnlinkAll(l, s[..0]) == l && s[..|s|] == s
  {
  }

  lemma Prefix(s: seq<nat>, i: nat)
    requires Distinct(s) && i <= |s|
    ensures Distinct(s[..i]) && Elements(s[..i]) <= Elements(s)
  {
  }

  lemma RemovedCount(c: set<nat>, s: seq<nat>)
    requires Distinct(s) && Elements(s) <= c
    ensures |c - Elements(s)| == |c| - |s|
  {
    DistinctCount(s);
    assert c == (c - Elements(s)) + Elements(s);
  }

  lemma FirstFacts(c: set<nat>, l: Links)
    requires Ring(c, l) && c != {}
    ensures l.first in c && forall v :: v in c ==> l.first <= v
  {
  }

  /** The strategy of `v` stays in the game. */
  ghost predicate Aims(g: Game, c: set<nat>, v: nat, to: int)
    requires g.Valid() && v < g.Size()
  {
    to >= 0 && to in c && g.Edge(v, to)
  }

  /** The links and strategies outside `c` are the same. */
  ghost predicate Agree(c: set<nat>, l: Links, str: seq<int>, l': Links, str': seq<int>) {
    && |l.next| == |l'.next| && |l.prev| == |l'.prev| && |str| == |str'|
    && (forall v :: 0 <= v < |l.next| && v !in c ==> l.next[v] == l'.next[v])
    && (forall v :: 0 <= v < |l.prev| && v !in c ==> l.prev[v] == l'.prev[v])
    && (forall v :: 0 <= v < |str| && v !in c ==> str[v] == str'[v])
  }

  lemma AgreeTrans(c: set<nat>, d: set<nat>, l: Links, str: seq<int>, l': Links, str': seq<int>, l'': Links, str'': seq<int>)
    requires Agree(d, l, str, l', str') && Agree(c, l', str', l'', str'') && d <= c
    ensures Agree(c, l, str, l'', str'')
  {
  }

  /** The C++ remainder of a number that is at least -1. */
  function Remainder(n: int): int
    requires n >= -1
  {
    if n == -1 then -1 else n % 2
  }

  const INT_MAX := 2147483647

  lemma FirstElement(s: seq<nat>)
    requires s != []
    ensures s[0] in Elements(s)
  {
  }

  lemma FewerLeft(c: set<nat>, s: seq<nat>)
    requires s != [] && Elements(s) <= c
    ensures c - Elements(s) != c
  {
    assert s[0] in Elements(s);
  }

  /** The list in which each vertex is followed by the next one holds all vertices. */
  lemma AllListed(g: Game, l: Links)
    requires g.Size() > 0 && |l.next| == |l.prev| == g.Size() && l.first == 0
    requires forall k :: 0 <= k < g.Size() ==> l.next[k] == if k + 1 == g.Size() then 0 else k + 1
    requires forall k :: 0 <= k < g.Size() ==> l.prev[k] == if k == 0 then g.Size() - 1 else k - 1
    ensures Ring(Vertices(g), l) && |Vertices(g)| == g.Size()
  {
    hide Ring;
    var all: seq<nat> := seq(g.Size(), k requires 0 <= k => k);
    forall v: nat | v < g.Size() ensures v in all { assert all[v] == v; }
    SortedRing(all, Vertices(g), l);
    DistinctCount(all);
    assert Elements(all) == Vertices(g);
  }

  datatype Variant = Standard | Warsaw | Liverpool

  class ZLKPPSolver {
    const game: Game
    const variant: Variant
    const minDominion: nat
    const curNodesBm: array<bool>
    const curNodesNext: array<nat>
    const curNodesPrev: array<nat>
    const numSuccessors: array<int>
    const isInAttractor: array<bool>
    const strategy: array<int>
    var curFirstNode: nat
    var curNumNodes: int
    var iterations: nat
    /** The vertices of the current game. */
    ghost var cur: set<nat>

    /** All vertices are in the current game, and the scratch arrays are clean. */
    constructor (g: Game, v: Variant, dominion: nat)
      requires g.Valid() && g.Sorted() && g.Size() > 0
      ensures Valid() && cur == Vertices(g)
      ensures game == g && variant == v && minDominion == dominion
      ensures fresh(curNodesBm) && fresh(curNodesNext) && fresh(curNodesPrev)
      ensures fresh(numSuccessors) && fresh(isInAttractor) && fresh(strategy)
    {
      var n := g.Size();
      game, variant, minDominion := g, v, dominion;
      curNodesBm := new bool[n](_ => true);
      curNodesNext := new nat[n](k requires 0 <= k => if k + 1 == n then 0 else k + 1);
      curNodesPrev := new nat[n](k requires 0 <= k => if k == 0 then n - 1 else k - 1);
      curFirstNode, curNumNodes, iterations := 0, n, 0;
      numSuccessors := new int[n](_ => -1);
      isInAttractor := new bool[n](_ => false);
      strategy := new int[n];
      cur := Vertices(g);
      new;
      hide Ring, List;
      ghost var l := Links(curNodesNext[..], curNodesPrev[..], curFirstNode);
      AllListed(g, l);
      FirstList(l);
    }

    lemma FirstList(l: Links)
      requires l == Links(curNodesNext[..], curNodesPrev[..], curFirstNode)
      ensures l == List()
    {
    }

    ghost predicate Shaped() {
      && game.Valid() && game.Sorted()
      && curNodesBm.Length == curNodesNext.Length == curNodesPrev.Length == game.Size()
      && numSuccessors.Length == isInAttractor.Length == strategy.Length == game.Size()
      && curNodesBm != isInAttractor && curNodesNext != curNodesPrev && numSuccessors != strategy
    }

    /** The circular list as a value. */
    ghost function List(): Links
      reads this`curFirstNode, curNodesNext, curNodesPrev
    {
      Links(curNodesNext[..], curNodesPrev[..], curFirstNode)
    }

    /** The linked list, its first node and the bitmap represent the vertices `c`. */
    ghost predicate Listed(c: set<nat>)
      reads this`curFirstNode, curNodesBm, curNodesNext, curNodesPrev
    {
      && Shaped()
      && Within(game, c)
      && (forall v :: 0 <= v < game.Size() ==> (curNodesBm[v] <==> v in c))
      && Ring(c, List())
    }

    /** List, bitmap and count all represent the current game `cur`. */
    ghost predicate Represents()
      reads this`cur, this`curNumNodes, this`curFirstNode, curNodesBm, curNodesNext, curNodesPrev
    {
      Listed(cur) && curNumNodes == |cur|
    }

    /** The scratch arrays are clean between attractor computations. */
    ghost predicate Clean()
      requires Shaped()
      reads numSuccessors, isInAttractor
    {
      forall v :: 0 <= v < game.Size() ==> numSuccessors[v] == -1 && !isInAttractor[v]
    }

    ghost predicate Valid()
      reads this`cur, this`curNumNodes, this`curFirstNode, curNodesBm, curNodesNext, curNodesPrev, numSuccessors, isInAttractor
    {
      Represents() && Clean()
    }

    // -------------------------------------------------------------------------------------------------------
    // Attractors
    // -------------------------------------------------------------------------------------------------------

    /** The state of an attractor computation that has processed `nodes[..h]` and the `seen` predecessors of the next. */
    ghost predicate Attracting(player: int, base: nat, nodes: seq<nat>, h: nat, seen: seq<nat>, dirty: seq<nat>)
      requires Represents() && h <= |nodes|
      reads this`cur, this`curNumNodes, this`curFirstNode, curNodesBm, curNodesNext, curNodesPrev, numSuccessors, isInAttractor, strategy
    {
      && Attracted(game, cur, player, base, nodes, strategy[..])
      && (forall u :: 0 <= u < game.Size() ==> (isInAttractor[u] <==> u in nodes))
      && (forall u :: 0 <= u < game.Size() && numSuccessors[u] != -1 ==> u in dirty)
      && (forall k :: 0 <= k < |dirty| ==> dirty[k] < game.Size())
      && Counts(game, cur, player, nodes, h, seen, numSuccessors[..])
    }

    /** Start or continue the counter of `u`: one edge less than before. */
    method CountDown(u: nat, dirty: seq<nat>, ghost player: int, ghost p: set<nat>, ghost v: nat, ghost seen: seq<nat>)
      returns (dirty': seq<nat>)
      requires Represents() && u in cur && game.owner[u] != player
      requires p <= cur && v in cur && v !in p && seen + [u] <= game.ins[v]
      requires Counted(game, cur, player, p, seen, u, numSuccessors[u])
      modifies numSuccessors
      ensures numSuccessors[u] == CountIn(game.outs[u], cur) - CountIn(game.outs[u], p) - multiset(seen + [u])[u] >= 0
      ensures forall x :: 0 <= x < game.Size() && x != u ==> numSuccessors[x] == old(numSuccessors[x])
      ensures dirty' == if old(numSuccessors[u]) < 0 then dirty + [u] else dirty
    {
      hide Game.Valid, Ring;
      Sizes(game);
      dirty' := dirty;
      if numSuccessors[u] < 0 {
        UntouchedCount(game, u, p);
        var k := |game.outs[u]|;
        while k > 0
          invariant 0 <= k <= |game.outs[u]|
          invariant numSuccessors[u] == -1 + CountIn(game.outs[u][k..], cur)
          invariant forall x :: 0 <= x < game.Size() && x != u ==> numSuccessors[x] == old(numSuccessors[x])
        {
          k := k - 1;
          assert game.outs[u][k..] == [game.outs[u][k]] + game.outs[u][k + 1..];
          EdgeInside(game, u, game.outs[u][k]);
          if curNodesBm[game.outs[u][k]] { numSuccessors[u] := numSuccessors[u] + 1; }
        }
        assert game.outs[u][0..] == game.outs[u];
        dirty' := dirty + [u];
      } else {
        numSuccessors[u] := numSuccessors[u] - 1;
      }
      StillCounted(game, cur, p, v, seen + [u], u);
    }

    /** One predecessor `u` of the vertex at the head of the queue. */
    method Consider(u: nat, v: nat, player: int, nodes: seq<nat>, dirty: seq<nat>, ghost base: nat, ghost h: nat, ghost seen: seq<nat>)
      returns (attracted: bool, dirty': seq<nat>)
      requires Represents() && h < |nodes| && nodes[h] == v && Attracting(player, base, nodes, h, seen, dirty)
      requires v < game.Size() && seen + [u] <= game.ins[v] && u < game.Size() && game.Edge(u, v)
      modifies numSuccessors, isInAttractor, strategy
      ensures Represents()
      ensures h < |if attracted then nodes + [u] else nodes|
      ensures Attracting(player, base, if attracted then nodes + [u] else nodes, h, seen + [u], dirty')
      ensures attracted ==> u in cur && u !in nodes
      ensures forall x :: 0 <= x < game.Size() && strategy[x] != old(strategy[x]) ==> attracted && x == u && game.owner[u] == player
    {
      hide Game.Valid, Ring, Counted, Attracted, Counts;
      Sizes(game);
      ghost var num, str := numSuccessors[..], strategy[..];
      ghost var p := Elements(nodes[..h]);
      attracted, dirty' := false, dirty;
      if curNodesBm[u] && !isInAttractor[u] {
        PrefixFacts(player, base, nodes, h, seen, u);
        attracted := true;
        if game.owner[u] != player {
          dirty' := CountDown(u, dirty, player, p, v, seen);
          if numSuccessors[u] != 0 {
            attracted := false;
            Positive(p, player, seen, u);
          } else {
            UsedUp(game, cur, p, v, seen + [u], u);
          }
        } else {
          strategy[u] := v;
        }
        if attracted {
          isInAttractor[u] := true;
          AttractedStep(game, cur, player, base, nodes, str, u, strategy[..]);
        }
      }
      CountsStep(game, cur, player, nodes, if attracted then nodes + [u] else nodes, h, seen, u, num, numSuccessors[..]);
      if !attracted { assert strategy[..] == str; }
    }

    lemma PrefixFacts(player: int, base: nat, nodes: seq<nat>, h: nat, seen: seq<nat>, u: nat)
      requires Represents() && h < |nodes| && Attracted(game, cur, player, base, nodes, strategy[..])
      requires Counts(game, cur, player, nodes, h, seen, numSuccessors[..]) && u in cur && u !in nodes
      ensures Elements(nodes[..h]) <= cur && nodes[h] in cur && nodes[h] !in Elements(nodes[..h])
      ensures forall x :: x in Elements(nodes[..h]) + {nodes[h]} ==> x in nodes
      ensures Counted(game, cur, player, Elements(nodes[..h]), seen, u, numSuccessors[u])
    {
    }

    lemma Positive(p: set<nat>, player: int, seen: seq<nat>, u: nat)
      requires Represents() && u in cur && game.owner[u] != player && numSuccessors[u] > 0
      requires numSuccessors[u] == CountIn(game.outs[u], cur) - CountIn(game.outs[u], p) - multiset(seen + [u])[u]
      ensures Counted(game, cur, player, p, seen + [u], u, numSuccessors[u])
    {
    }

    lemma Inside(player: int, base: nat, nodes: seq<nat>)
      requires Represents() && Attracted(game, cur, player, base, nodes, strategy[..])
      ensures forall k :: 0 <= k < |nodes| ==> nodes[k] < game.Size() && nodes[k] in cur
      ensures forall j, k :: 0 <= j < k < |nodes| ==> nodes[j] != nodes[k]
      ensures |nodes| == |Elements(nodes)| <= |cur|
    {
      DistinctCount(nodes);
      SubsetSize(Elements(nodes), cur);
    }

    lemma InitialCounts(player: int, nodes: seq<nat>)
      requires Valid() && Attracted(game, cur, player, |nodes|, nodes, strategy[..])
      ensures Counts(game, cur, player, nodes, 0, [], numSuccessors[..])
    {
    }

    /** Attract the predecessors of `v`, the `h`-th attracted vertex. */
    method Expand(v: nat, player: int, nodes: seq<nat>, queue: seq<nat>, dirty: seq<nat>, changed: bool, ghost base: nat, ghost h: nat)
      returns (nodes': seq<nat>, queue': seq<nat>, dirty': seq<nat>, changed': bool)
      requires Represents() && h < |nodes| && nodes[h] == v && queue == nodes[h + 1..]
      requires Attracting(player, base, nodes, h, [], dirty)
      modifies numSuccessors, isInAttractor, strategy
      ensures Represents() && nodes <= nodes' && queue' == nodes'[h + 1..]
      ensures Attracting(player, base, nodes', h + 1, [], dirty')
      ensures changed' <==> changed || |nodes'| > |nodes|
      ensures forall x :: 0 <= x < game.Size() && strategy[x] != old(strategy[x]) ==>
        x in nodes' && x !in nodes && game.owner[x] == player
    {
      hide Game.Valid, Ring, Counted, Attracted, Counts, Elements;
      Sizes(game);
      Inside(player, base, nodes);
      nodes', queue', dirty', changed' := nodes, queue, dirty, changed;
      var j := 0;
      while j < |game.ins[v]|
        invariant 0 <= j <= |game.ins[v]|
        invariant Represents() && nodes <= nodes' && queue' == nodes'[h + 1..]
        invariant Attracting(player, base, nodes', h, game.ins[v][..j], dirty')
        invariant changed' <==> changed || |nodes'| > |nodes|
        invariant forall x :: 0 <= x < game.Size() && strategy[x] != old(strategy[x]) ==>
          x in nodes' && x !in nodes && game.owner[x] == player
      {
        var u := game.ins[v][j];
        assert game.ins[v][..j] + [u] == game.ins[v][..j + 1];
        EdgeBack(game, v, j);
        var attracted;
        attracted, dirty' := Consider(u, v, player, nodes', dirty', base, h, game.ins[v][..j]);
        if attracted {
          nodes' := nodes' + [u];
          queue' := queue' + [u];
          changed' := true;
        }
        j := j + 1;
      }
      assert game.ins[v][..j] == game.ins[v];
      Inside(player, base, nodes');
      CountsNext(game, cur, player, nodes', h, numSuccessors[..]);
    }

    /** Mark and enqueue the vertices to which is attracted. */
    method Enqueue(nodes: seq<nat>) returns (queue: seq<nat>)
      requires Shaped() && forall u :: 0 <= u < game.Size() ==> !isInAttractor[u]
      requires forall k :: 0 <= k < |nodes| ==> nodes[k] < game.Size()
      modifies isInAttractor
      ensures queue == nodes
      ensures forall u :: 0 <= u < game.Size() ==> (isInAttractor[u] <==> u in nodes)
    {
      hide Game.Valid;
      queue := [];
      var i := 0;
      while i < |nodes|
        invariant 0 <= i <= |nodes| && queue == nodes[..i]
        invariant forall u :: 0 <= u < game.Size() ==> (isInAttractor[u] <==> u in nodes[..i])
      {
        isInAttractor[nodes[i]] := true;
        queue := queue + [nodes[i]];
        assert nodes[..i + 1] == nodes[..i] + [nodes[i]];
        i := i + 1;
      }
      assert nodes[..i] == nodes;
    }

    /** Reset the scratch arrays where they have been used. */
    method Cleanup(nodes: seq<nat>, dirty: seq<nat>)
      requires Shaped()
      requires forall k :: 0 <= k < |nodes| ==> nodes[k] < game.Size()
      requires forall k :: 0 <= k < |dirty| ==> dirty[k] < game.Size()
      requires forall u :: 0 <= u < game.Size() && isInAttractor[u] ==> u in nodes
      requires forall u :: 0 <= u < game.Size() && numSuccessors[u] != -1 ==> u in dirty
      modifies numSuccessors, isInAttractor
      ensures Clean()
    {
      hide Game.Valid;
      var i := 0;
      while i < |nodes|
        invariant 0 <= i <= |nodes|
        invariant forall u :: 0 <= u < game.Size() && isInAttractor[u] ==> u in nodes[i..]
        invariant numSuccessors[..] == old(numSuccessors[..])
      {
        isInAttractor[nodes[i]] := false;
        i := i + 1;
      }
      var j := 0;
      while j < |dirty|
        invariant 0 <= j <= |dirty|
        invariant forall u :: 0 <= u < game.Size() && numSuccessors[u] != -1 ==> u in dirty[j..]
        invariant forall u :: 0 <= u < game.Size() ==> !isInAttractor[u]
      {
        numSuccessors[dirty[j]] := -1;
        j := j + 1;
      }
    }

    /** Extend `nodes` to the vertices of the current game from which the player can force a visit to it; tells whether
        there are any. Winning moves of the player are recorded for what has been added, and nowhere else. */
    method GetAttractor(player: int, nodes: seq<nat>) returns (nodes': seq<nat>, changed: bool)
      requires Valid() && NoDeadEnds(game, cur)
      requires Attracted(game, cur, player, |nodes|, nodes, strategy[..])
      modifies numSuccessors, isInAttractor, strategy
      ensures Valid()
      ensures nodes <= nodes' && (changed <==> |nodes'| > |nodes|)
      ensures Attracted(game, cur, player, |nodes|, nodes', strategy[..])
      ensures Saturated(game, cur, player, Elements(nodes'))
      ensures forall x :: 0 <= x < game.Size() && strategy[x] != old(strategy[x]) ==>
        x in nodes' && x !in nodes && game.owner[x] == player
    {
      hide Game.Valid, Ring, Counted, Attracted, Counts, Saturated, NoDeadEnds;
      Sizes(game);
      var queue: seq<nat>;
      var dirty: seq<nat> := [];
      changed := false;
      nodes' := nodes;
      InitialCounts(player, nodes);
      Inside(player, |nodes|, nodes);
      queue := Enqueue(nodes);
      ghost var h := 0;
      while queue != []
        invariant Represents() && h <= |nodes'| && queue == nodes'[h..]
        invariant Attracting(player, |nodes|, nodes', h, [], dirty)
        invariant nodes <= nodes' && (changed <==> |nodes'| > |nodes|)
        invariant forall x :: 0 <= x < game.Size() && strategy[x] != old(strategy[x]) ==>
          x in nodes' && x !in nodes && game.owner[x] == player
        decreases |cur| - h
      {
        Inside(player, |nodes|, nodes');
        var v := queue[0];
        assert v == nodes'[h];
        nodes', queue, dirty, changed := Expand(v, player, nodes', queue[1..], dirty, changed, |nodes|, h);
        h := h + 1;
      }
      assert h == |nodes'|;
      Inside(player, |nodes|, nodes');
      CountsSaturated(game, cur, player, nodes', numSuccessors[..]);
      Cleanup(nodes', dirty);
    }

    // -------------------------------------------------------------------------------------------------------
    // The current game
    // -------------------------------------------------------------------------------------------------------

    method UnlinkNode(v: nat, ghost c: set<nat>)
      requires Listed(c) && v in c
      modifies this`curFirstNode, curNodesBm, curNodesNext, curNodesPrev
      ensures Listed(c - {v}) && List() == Unlink(old(List()), v)
    {
      UnlinkRing(c, List(), v);
      hide Game.Valid, Game.Sorted, Ring;
      curNodesBm[v] := false;
      curNodesNext[curNodesPrev[v]] := curNodesNext[v];
      curNodesPrev[curNodesNext[v]] := curNodesPrev[v];
      if v == curFirstNode { curFirstNode := curNodesNext[v]; }
      assert List() == Unlink(old(List()), v);
    }

    /** Put back `v`, which was unlinked from the list `l` of `c` just before. */
    method RelinkNode(v: nat, ghost c: set<nat>, ghost l: Links)
      requires Listed(c - {v}) && v in c && v < game.Size() && Ring(c, l) && List() == Unlink(l, v)
      modifies this`curFirstNode, curNodesBm, curNodesNext, curNodesPrev
      ensures Listed(c) && List() == l
    {
      RelinkUndoes(c, l, v);
      hide Game.Valid, Game.Sorted, Ring, Unlink;
      curNodesBm[v] := true;
      curNodesNext[curNodesPrev[v]] := v;
      curNodesPrev[curNodesNext[v]] := v;
      if curNodesPrev[v] >= v { curFirstNode := v; }
      assert List() == Relink(old(List()), v);
    }

    method RemoveNodes(nodes: seq<nat>)
      requires Represents() && Distinct(nodes) && Elements(nodes) <= cur
      modifies this`curFirstNode, this`curNumNodes, this`cur, curNodesBm, curNodesNext, curNodesPrev
      ensures Represents() && cur == old(cur) - Elements(nodes)
      ensures List() == UnlinkAll(old(List()), nodes)
    {
      hide Listed, UnlinkAll, Unlink, Elements, Distinct;
      NoElements(cur, List(), nodes);
      var i := 0;
      while i < |nodes|
        invariant 0 <= i <= |nodes| && cur == old(cur) && curNumNodes == old(curNumNodes)
        invariant Listed(cur - Elements(nodes[..i])) && List() == UnlinkAll(old(List()), nodes[..i])
      {
        NextElement(cur, old(List()), nodes, i);
        UnlinkNode(nodes[i], cur - Elements(nodes[..i]));
        i := i + 1;
      }
      RemovedCount(cur, nodes);
      cur := cur - Elements(nodes);
      curNumNodes := curNumNodes - |nodes|;
    }

    /** Undo RemoveNodes: the list `l` of the vertices `c`, their bitmap and their count are back. */
    method RestoreNodes(nodes: seq<nat>, ghost c: set<nat>, ghost l: Links)
      requires Represents() && Distinct(nodes) && Elements(nodes) <= c && Within(game, c) && Ring(c, l)
      requires cur == c - Elements(nodes) && List() == UnlinkAll(l, nodes)
      modifies this`curFirstNode, this`curNumNodes, this`cur, curNodesBm, curNodesNext, curNodesPrev
      ensures Represents() && cur == c && List() == l
    {
      hide Listed, UnlinkAll, Unlink, Elements, Distinct, Ring;
      NoElements(c, l, nodes);
      var i := |nodes|;
      while i > 0
        invariant 0 <= i <= |nodes| && cur == old(cur) && curNumNodes == old(curNumNodes)
        invariant Listed(c - Elements(nodes[..i])) && List() == UnlinkAll(l, nodes[..i])
      {
        i := i - 1;
        NextElement(c, l, nodes, i);
        Prefix(nodes, i);
        UnlinkAllRing(c, l, nodes[..i]);
        RelinkNode(nodes[i], c - Elements(nodes[..i]), UnlinkAll(l, nodes[..i]));
      }
      RemovedCount(c, nodes);
      cur := c;
      curNumNodes := curNumNodes + |nodes|;
    }

    /** The vertices of the current game in increasing order. */
    method GetCurNodes() returns (ret: seq<nat>)
      requires Represents()
      ensures Increasing(ret) && Elements(ret) == cur
    {
      hide Game.Valid, Game.Sorted, Ring;
      ret := [];
      if curNumNodes != 0 {
        FirstFacts(cur, List());
        var v := curFirstNode;
        while true
          invariant v in cur && Increasing(ret)
          invariant forall x :: x in ret <==> x in cur && x < v
          decreases game.Size() - v
        {
          NextAbove(cur, List(), v);
          assert forall j :: 0 <= j < |ret| ==> ret[j] in ret;
          ret := ret + [v];
          var w := curNodesNext[v];
          if w == curFirstNode { break; }
          v := w;
        }
      }
      assert forall x :: x in ret <==> x in cur;
    }

    /** Make the sorted vector `nodes`, which includes the current game, the current game. */
    method SetCurNodes(nodes: seq<nat>)
      requires Represents() && nodes != [] && Increasing(nodes)
      requires cur <= Elements(nodes) && Within(game, Elements(nodes))
      modifies this`curFirstNode, this`curNumNodes, this`cur, curNodesBm, curNodesNext, curNodesPrev
      ensures Represents() && cur == Elements(nodes)
      ensures forall v :: 0 <= v < game.Size() && v !in nodes ==>
        curNodesNext[v] == old(curNodesNext[v]) && curNodesPrev[v] == old(curNodesPrev[v])
    {
      hide Game.Valid, Game.Sorted, Ring;
      forall k | 0 <= k < |nodes| ensures nodes[k] < game.Size() { assert nodes[k] in Elements(nodes); }
      var a := 0;
      while a < |nodes|
        invariant 0 <= a <= |nodes| && cur == old(cur) && curFirstNode == old(curFirstNode)
        invariant forall v :: 0 <= v < game.Size() ==> (curNodesBm[v] <==> v in cur || v in nodes[..a])
        invariant forall k :: 0 <= k < a ==> Tied(nodes, k)
        invariant forall v :: 0 <= v < game.Size() && v !in nodes ==>
          curNodesNext[v] == old(curNodesNext[v]) && curNodesPrev[v] == old(curNodesPrev[v])
      {
        Tie(nodes, a);
        assert nodes[..a + 1] == nodes[..a] + [nodes[a]];
        a := a + 1;
      }
      assert nodes[..a] == nodes;
      curFirstNode := nodes[0];
      curNumNodes := |nodes|;
      DistinctCount(nodes);
      cur := Elements(nodes);
      AllTied(nodes);
    }

    ghost predicate Tied(nodes: seq<nat>, k: nat)
      requires Shaped() && k < |nodes|
      reads curNodesNext, curNodesPrev
    {
      && nodes[k] < game.Size() && nodes[After(k, |nodes|)] < game.Size()
      && curNodesNext[nodes[k]] == nodes[After(k, |nodes|)] && curNodesPrev[nodes[After(k, |nodes|)]] == nodes[k]
    }

    lemma AllTied(nodes: seq<nat>)
      requires Shaped() && nodes != [] && Increasing(nodes) && curFirstNode == nodes[0]
      requires forall k :: 0 <= k < |nodes| ==> Tied(nodes, k)
      ensures Ring(Elements(nodes), List())
    {
      forall k | 0 <= k < |nodes|
        ensures nodes[k] < game.Size() && curNodesNext[nodes[k]] == nodes[After(k, |nodes|)]
        ensures nodes[After(k, |nodes|)] < game.Size() && curNodesPrev[nodes[After(k, |nodes|)]] == nodes[k]
      {
        assert Tied(nodes, k);
      }
      SortedRing(nodes, Elements(nodes), List());
    }

    /** Enter the `a`-th vertex into the bitmap and link it to the next one. */
    method Tie(nodes: seq<nat>, a: nat)
      requires Shaped() && a < |nodes| && Increasing(nodes)
      requires forall k :: 0 <= k < |nodes| ==> nodes[k] < game.Size()
      requires forall k :: 0 <= k < a ==> Tied(nodes, k)
      modifies curNodesBm, curNodesNext, curNodesPrev
      ensures curNodesBm[..] == old(curNodesBm[..])[nodes[a] := true]
      ensures forall k :: 0 <= k <= a ==> Tied(nodes, k)
      ensures forall v :: 0 <= v < game.Size() && v !in nodes ==>
        curNodesNext[v] == old(curNodesNext[v]) && curNodesPrev[v] == old(curNodesPrev[v])
    {
      hide Game.Valid, Game.Sorted;
      assert (a + 1) % |nodes| == After(a, |nodes|);
      var v, v2 := nodes[a], nodes[(a + 1) % |nodes|];
      curNodesBm[v] := true;
      curNodesNext[v] := v2;
      curNodesPrev[v2] := v;
      forall k | 0 <= k < a ensures Tied(nodes, k) {
        assert old(Tied(nodes, k));
        assert nodes[k] < nodes[a] && nodes[After(k, |nodes|)] != v2;
      }
    }

    /** The successor of `v` in the current game that comes first in the edge list. */
    method FirstSuccessor(v: nat) returns (to: nat)
      requires Represents() && v < game.Size() && HasSuccessor(game, cur, v)
      ensures Aims(game, cur, v, to)
    {
      hide Game.Sorted, Ring;
      var k := 0;
      while !curNodesBm[game.outs[v][k]]
        invariant 0 <= k < |game.outs[v]|
        invariant forall j :: 0 <= j < k ==> game.outs[v][j] !in cur
        decreases |game.outs[v]| - k
      {
        k := k + 1;
      }
      to := game.outs[v][k];
    }

    /** The vertices of the given priority, the highest of the current game, from the last to the first; each of them gets
        a move inside the current game. */
    method GetNodesOfMaxPriority(maxPriority: int) returns (top: seq<nat>)
      requires Represents() && NoDeadEnds(game, cur)
      requires forall v :: v in cur ==> game.priority[v] <= maxPriority
      modifies strategy
      ensures Represents() && Distinct(top)
      ensures forall v :: v in top <==> v in cur && game.priority[v] == maxPriority
      ensures forall v :: v in top ==> Aims(game, cur, v, strategy[v])
      ensures forall v :: 0 <= v < game.Size() && v !in top ==> strategy[v] == old(strategy[v])
    {
      hide Game.Valid, Game.Sorted, Ring, Aims;
      Sizes(game);
      top := [];
      if curNumNodes != 0 {
        FirstFacts(cur, List());
        PrevBelow(cur, List(), curFirstNode);
        var v := curNodesPrev[curFirstNode];
        while game.priority[v] == maxPriority
          invariant Represents() && v in cur && Distinct(top)
          invariant forall x :: x in top <==> x in cur && x > v
          invariant forall x :: x in top ==> game.priority[x] == maxPriority && Aims(game, cur, x, strategy[x])
          invariant forall x :: 0 <= x < game.Size() && x !in top ==> strategy[x] == old(strategy[x])
          decreases v
        {
          assert HasSuccessor(game, cur, v);
          PrevBelow(cur, List(), v);
          top := top + [v];
          var to := FirstSuccessor(v);
          strategy[v] := to;
          if v == curFirstNode { break; }
          v := curNodesPrev[v];
        }
        assert forall x :: x in cur && x !in top ==> x <= v && game.priority[v] != maxPriority;
        LowerBelow(v, maxPriority);
      }
    }

    lemma LowerBelow(v: nat, maxPriority: int)
      requires Represents() && v in cur && game.priority[v] <= maxPriority
      ensures game.priority[v] != maxPriority ==> forall x :: x in cur && x <= v ==> game.priority[x] != maxPriority
    {
    }

    // -------------------------------------------------------------------------------------------------------
    // The recursion
    // -------------------------------------------------------------------------------------------------------

    /** What the recursion demands: no priority of the current game exceeds `maxPriority`. */
    ghost predicate Ready(maxPriority: int)
      reads this`cur, this`curNumNodes, this`curFirstNode, curNodesBm, curNodesNext, curNodesPrev, numSuccessors, isInAttractor
    {
      && Valid() && maxPriority >= -1 && minDominion >= 1
      && NoDeadEnds(game, cur)
      && forall v :: v in cur ==> game.priority[v] <= maxPriority
    }

    /** Links and strategies outside `c` are as in `l` and `str`. */
    ghost predicate Untouched(c: set<nat>, l: Links, str: seq<int>)
      reads this`curFirstNode, curNodesNext, curNodesPrev, strategy
    {
      Agree(c, List(), strategy[..], l, str)
    }

    /** Strategies outside `c` are as in `str`. */
    ghost predicate Steady(c: set<nat>, str: seq<int>)
      reads strategy
    {
      |str| == strategy.Length && forall v :: 0 <= v < |str| && v !in c ==> strategy[v] == str[v]
    }

    /** With full precision the standard variant is exact. */
    predicate Exact(precCur: nat, precOpo: nat) {
      variant.Standard? && precCur >= minDominion && precOpo >= minDominion
    }

    /** The game `c` has been reduced to the current game by taking out attractors of the opponent. */
    ghost predicate Reduced(c: set<nat>, maxPriority: nat)
      reads this`cur, this`curNumNodes, this`curFirstNode, curNodesBm, curNodesNext, curNodesPrev, numSuccessors, isInAttractor
    {
      && Ready(maxPriority) && cur <= c && Within(game, c)
      && Saturated(game, c, 1 - maxPriority % 2, c - cur)
    }

    lemma ReadyBelow(maxPriority: nat, c: set<nat>, base: nat, a: seq<nat>)
      requires Valid() && minDominion >= 1 && Within(game, c) && NoDeadEnds(game, c) && cur == c - Elements(a)
      requires Saturated(game, c, maxPriority % 2, Elements(a)) && base <= |a|
      requires forall v :: v in c ==> game.priority[v] <= maxPriority
      requires forall v :: v in a[..base] <==> v in c && game.priority[v] == maxPriority
      ensures Ready(maxPriority - 1)
    {
      SaturatedRest(game, c, maxPriority % 2, Elements(a));
      forall v | v in cur ensures game.priority[v] <= maxPriority - 1 { assert v !in a[..base]; }
    }

    lemma NothingBelow(lose: seq<nat>)
      requires Ready(-1) && Elements(lose) <= cur
      ensures lose == []
    {
      if lose != [] { FirstElement(lose); }
    }

    /** The attractor of the vertices of the highest priority. */
    method AttractTop(maxPriority: nat) returns (attractor: seq<nat>, ghost base: nat)
      requires Ready(maxPriority)
      modifies numSuccessors, isInAttractor, strategy
      ensures Ready(maxPriority)
      ensures base <= |attractor| && forall v :: v in attractor[..base] <==> v in cur && game.priority[v] == maxPriority
      ensures Attracted(game, cur, maxPriority % 2, base, attractor, strategy[..])
      ensures Saturated(game, cur, maxPriority % 2, Elements(attractor))
      ensures forall v :: 0 <= v < game.Size() && v !in cur ==> strategy[v] == old(strategy[v])
    {
      hide Game.Valid, Game.Sorted, Ring, Represents, Clean, Aims, Attracted, Saturated, NoDeadEnds, Distinct;
      ReadyFacts(maxPriority);
      attractor := GetNodesOfMaxPriority(maxPriority);
      ghost var top := attractor;
      assert Elements(top) <= cur;
      BaseAttracted(maxPriority % 2, top);
      base := |top|;
      var changed;
      attractor, changed := GetAttractor(maxPriority % 2, attractor);
      assert attractor[..base] == top;
      AttractedFacts(maxPriority % 2, base, attractor);
    }

    /** Attract to the highest priority, solve what is left, and put the attractor back. */
    method Descend(maxPriority: nat, precCur: nat, precOpo: nat, reachedCur: bool, reachedOpo: bool)
      returns (lose: seq<nat>, numNodesInH: int, reachedCur': bool, reachedOpo': bool, ghost base: nat, ghost a: seq<nat>)
      requires Ready(maxPriority)
      modifies this`curFirstNode, this`curNumNodes, this`cur, this`iterations
      modifies curNodesBm, curNodesNext, curNodesPrev, numSuccessors, isInAttractor, strategy
      ensures Ready(maxPriority) && cur == old(cur) && List() == old(List())
      ensures Untouched(cur, List(), old(strategy[..]))
      ensures Attracted(game, cur, maxPriority % 2, base, a, strategy[..])
      ensures Saturated(game, cur, maxPriority % 2, Elements(a))
      ensures forall v :: v in a[..base] <==> v in cur && game.priority[v] == maxPriority
      ensures Increasing(lose) && Elements(lose) <= cur - Elements(a)
      ensures maxPriority == 0 ==> lose == []
      ensures numNodesInH == |cur - Elements(a)|
      ensures Exact(precCur, precOpo) ==>
        CorrectSolution(game, cur - Elements(a), WinOf(game, 1 - maxPriority % 2, Elements(lose)), strategy[..])
      decreases maxPriority + 1, 0, 2
    {
      hide Ready, Attracted, Saturated, CorrectSolution, Increasing, WinOf, Elements, Untouched;
      ghost var c, l, str := cur, List(), strategy[..];
      var attractor;
      attractor, base := AttractTop(maxPriority);
      a := attractor;
      lose, numNodesInH, reachedCur', reachedOpo' :=
        SolveBelow(maxPriority, precCur, precOpo, reachedCur, reachedOpo, attractor, base);
      ReadyFacts(maxPriority);
      SameLinks(l, str);
    }

    /** Solve the current game without the attractor, and put the attractor back. */
    method SolveBelow(maxPriority: nat, precCur: nat, precOpo: nat, reachedCur: bool, reachedOpo: bool,
                      attractor: seq<nat>, ghost base: nat)
      returns (lose: seq<nat>, numNodesInH: int, reachedCur': bool, reachedOpo': bool)
      requires Ready(maxPriority)
      requires base <= |attractor| && forall v :: v in attractor[..base] <==> v in cur && game.priority[v] == maxPriority
      requires Attracted(game, cur, maxPriority % 2, base, attractor, strategy[..])
      requires Saturated(game, cur, maxPriority % 2, Elements(attractor))
      modifies this`curFirstNode, this`curNumNodes, this`cur, this`iterations
      modifies curNodesBm, curNodesNext, curNodesPrev, numSuccessors, isInAttractor, strategy
      ensures Ready(maxPriority) && cur == old(cur) && List() == old(List())
      ensures Steady(cur - Elements(attractor), old(strategy[..]))
      ensures Attracted(game, cur, maxPriority % 2, base, attractor, strategy[..])
      ensures Increasing(lose) && Elements(lose) <= cur - Elements(attractor)
      ensures maxPriority == 0 ==> lose == []
      ensures numNodesInH == |cur - Elements(attractor)|
      ensures Exact(precCur, precOpo) ==>
        CorrectSolution(game, cur - Elements(attractor), WinOf(game, 1 - maxPriority % 2, Elements(lose)), strategy[..])
      decreases maxPriority + 1, 0, 1
    {
      hide Game.Valid, Game.Sorted, Shaped, Ring, Represents, Clean, Ready, Attracted, Saturated, NoDeadEnds;
      hide CorrectSolution, Increasing, WinOf, UnlinkAll, Distinct, Elements, Steady;
      ghost var c, l, str := cur, List(), strategy[..];
      ReadyFacts(maxPriority);
      AttractedFacts(maxPriority % 2, base, attractor);
      lose, numNodesInH, reachedCur', reachedOpo' :=
        SolveRest(maxPriority, precCur, precOpo, reachedCur, reachedOpo, attractor, base);
      RestoreNodes(attractor, c, l);
      StillAttracted(maxPriority % 2, base, attractor, str);
      ReadyAgain(maxPriority);
    }

    /** Take the attractor out and solve what is left. */
    method SolveRest(maxPriority: nat, precCur: nat, precOpo: nat, reachedCur: bool, reachedOpo: bool,
                     attractor: seq<nat>, ghost base: nat)
      returns (lose: seq<nat>, numNodesInH: int, reachedCur': bool, reachedOpo': bool)
      requires Ready(maxPriority) && Distinct(attractor) && Elements(attractor) <= cur
      requires base <= |attractor| && forall v :: v in attractor[..base] <==> v in cur && game.priority[v] == maxPriority
      requires Saturated(game, cur, maxPriority % 2, Elements(attractor))
      modifies this`curFirstNode, this`curNumNodes, this`cur, this`iterations
      modifies curNodesBm, curNodesNext, curNodesPrev, numSuccessors, isInAttractor, strategy
      ensures Represents() && Clean() && cur == old(cur) - Elements(attractor) && List() == UnlinkAll(old(List()), attractor)
      ensures Steady(cur, old(strategy[..]))
      ensures Increasing(lose) && Elements(lose) <= cur
      ensures maxPriority == 0 ==> lose == []
      ensures numNodesInH == |cur|
      ensures Exact(precCur, precOpo) ==>
        CorrectSolution(game, cur, WinOf(game, 1 - maxPriority % 2, Elements(lose)), strategy[..])
      decreases maxPriority + 1, 0, 0
    {
      hide Game.Valid, Game.Sorted, Shaped, Ring, Represents, Clean, Ready, Saturated, NoDeadEnds;
      hide CorrectSolution, Increasing, WinOf, UnlinkAll, Untouched, Distinct, Elements, Steady;
      ghost var c, str := cur, strategy[..];
      ReadyFacts(maxPriority);
      RemoveNodes(attractor);
      ReadyBelow(maxPriority, c, base, attractor);
      ghost var l := List();
      assert (maxPriority - 1) % 2 == 1 - maxPriority % 2;
      lose, reachedOpo', reachedCur' := Solve(maxPriority - 1, precOpo, precCur, reachedOpo, reachedCur);
      ReadyFacts(maxPriority - 1);
      Facts();
      Outside(cur, l, str);
      if maxPriority == 0 { NothingBelow(lose); }
      numNodesInH := curNumNodes;
    }

    lemma StillAttracted(player: int, base: nat, a: seq<nat>, str: seq<int>)
      requires Represents() && |str| == game.Size() && Attracted(game, cur, player, base, a, str)
      requires Steady(cur - Elements(a), str)
      ensures Attracted(game, cur, player, base, a, strategy[..])
    {
      forall v | v in a ensures strategy[v] == str[v] { assert v in Elements(a); }
      AttractedStable(game, cur, player, base, a, str, strategy[..]);
    }

    lemma ReadyFacts(maxPriority: int)
      requires Ready(maxPriority)
      ensures Valid() && minDominion >= 1 && maxPriority >= -1 && NoDeadEnds(game, cur)
      ensures Shaped() && Within(game, cur) && Ring(cur, List()) && Frame(game, cur, strategy[..])
      ensures curNodesBm != isInAttractor && curNodesNext != curNodesPrev && numSuccessors != strategy
      ensures forall v :: v in cur ==> game.priority[v] <= maxPriority
    {
    }

    lemma ReadyAgain(maxPriority: int)
      requires Valid() && minDominion >= 1 && maxPriority >= -1 && NoDeadEnds(game, cur)
      requires forall v :: v in cur ==> game.priority[v] <= maxPriority
      ensures Ready(maxPriority)
    {
    }

    lemma AttractedFacts(player: int, base: nat, a: seq<nat>)
      requires Represents() && Attracted(game, cur, player, base, a, strategy[..])
      ensures Distinct(a) && Elements(a) <= cur
    {
    }

    lemma SameLinks(l: Links, str: seq<int>)
      requires Shaped() && l == List() && |str| == game.Size()
      requires forall v :: 0 <= v < game.Size() && v !in cur ==> strategy[v] == str[v]
      ensures Untouched(cur, l, str)
    {
    }

    lemma Facts()
      requires Represents()
      ensures Shaped() && Within(game, cur) && Ring(cur, List()) && curNumNodes == |cur|
    {
    }

    lemma BaseAttracted(player: int, top: seq<nat>)
      requires Represents() && Distinct(top) && Elements(top) <= cur
      ensures Attracted(game, cur, player, |top|, top, strategy[..])
    {
    }

    /** The player of the attractor is the opponent, except that nobody is when there is nothing to attract to. */
    lemma Opponent(maxPriority: nat, lose: seq<nat>, won: seq<nat>)
      requires Represents() && NoDeadEnds(game, cur) && (maxPriority == 0 ==> lose == [])
      requires Attracted(game, cur, Remainder(maxPriority - 1), |lose|, won, strategy[..])
      requires Saturated(game, cur, Remainder(maxPriority - 1), Elements(won))
      ensures Attracted(game, cur, 1 - maxPriority % 2, |lose|, won, strategy[..])
      ensures Saturated(game, cur, 1 - maxPriority % 2, Elements(won))
      ensures Distinct(won) && Elements(won) <= cur
    {
      if maxPriority == 0 {
        NothingAttracted(game, cur, -1, won, strategy[..]);
        BaseAttracted(1, won);
        assert Elements(won) == {};
        SaturatedEmpty(game, cur, 1);
      }
      Inside(1 - maxPriority % 2, |lose|, won);
    }

    lemma RemovalUntouched(c: set<nat>, l: Links, str: seq<int>, won: seq<nat>)
      requires Shaped() && Ring(c, l) && List() == UnlinkAll(l, won) && Distinct(won) && Elements(won) <= c
      requires |str| == game.Size() && |l.next| == game.Size() && |l.prev| == game.Size()
      requires forall v :: 0 <= v < game.Size() && strategy[v] != str[v] ==> v in won
      ensures Untouched(c, l, str)
    {
      UnlinkAllRing(c, l, won);
    }

    /** Take the opponent's attractor of `lose` out of the current game. */
    method TakeOut(maxPriority: nat, lose: seq<nat>) returns (changed: bool, ghost won: seq<nat>)
      requires Ready(maxPriority) && Increasing(lose) && Elements(lose) <= cur
      requires maxPriority == 0 ==> lose == []
      modifies this`curFirstNode, this`curNumNodes, this`cur
      modifies curNodesBm, curNodesNext, curNodesPrev, numSuccessors, isInAttractor, strategy
      ensures Ready(maxPriority) && cur == old(cur) - Elements(won) && Elements(won) <= old(cur)
      ensures Untouched(old(cur), old(List()), old(strategy[..]))
      ensures lose <= won && (changed <==> |won| > |lose|) && (changed ==> cur != old(cur))
      ensures Attracted(game, old(cur), 1 - maxPriority % 2, |lose|, won, strategy[..])
      ensures Saturated(game, old(cur), 1 - maxPriority % 2, Elements(won))
      ensures forall v :: 0 <= v < game.Size() && strategy[v] != old(strategy[v]) ==> v in won && v !in lose
    {
      hide Game.Valid, Game.Sorted, Ring, Listed, Clean, Attracted, Saturated, NoDeadEnds, Elements, Untouched, UnlinkAll;
      ghost var c, l, str := cur, List(), strategy[..];
      var player := Remainder(maxPriority - 1);
      Facts();
      BaseAttracted(player, lose);
      var nodes;
      nodes, changed := GetAttractor(player, lose);
      won := nodes;
      Opponent(maxPriority, lose, won);
      RemoveNodes(nodes);
      SaturatedRest(game, c, 1 - maxPriority % 2, Elements(won));
      RemovalUntouched(c, l, str, won);
      if changed { FewerLeft(c, won); }
    }

    /** One step: of what the recursion returned as lost, `lose`, the attractor of the opponent, `won`, is taken out, and
        `changed` tells whether it is larger. */
    method DoStep(maxPriority: nat, precCur: nat, precOpo: nat, reachedCur: bool, reachedOpo: bool)
      returns (changed: bool, numNodesInH: int, reachedCur': bool, reachedOpo': bool, ghost lose: seq<nat>, ghost won: seq<nat>)
      requires Ready(maxPriority)
      modifies this`curFirstNode, this`curNumNodes, this`cur, this`iterations
      modifies curNodesBm, curNodesNext, curNodesPrev, numSuccessors, isInAttractor, strategy
      ensures Reduced(old(cur), maxPriority)
      ensures Untouched(old(cur), old(List()), old(strategy[..]))
      ensures changed ==> cur != old(cur)
      ensures cur == old(cur) - Elements(won) && Elements(won) <= old(cur) && lose <= won && (changed <==> |won| > |lose|)
      ensures Attracted(game, old(cur), 1 - maxPriority % 2, |lose|, won, strategy[..])
      ensures Saturated(game, old(cur), 1 - maxPriority % 2, Elements(won))
      ensures forall v :: v in lose ==> game.priority[v] < maxPriority
      ensures Exact(precCur, precOpo) ==> Dominion(game, old(cur), old(cur) - cur, 1 - maxPriority % 2, strategy[..])
      ensures Exact(precCur, precOpo) && !changed ==> KernelLeft(game, cur, maxPriority, maxPriority % 2, strategy[..])
      decreases maxPriority + 1, 1, 0
    {
      hide Game.Valid, Game.Sorted, Ring, Represents, Clean, Ready, Reduced, Untouched, Attracted, Saturated, NoDeadEnds;
      hide CorrectSolution, Dominion, KernelLeft, Increasing, WinOf, Elements;
      changed, numNodesInH, reachedCur', reachedOpo' := false, INT_MAX, reachedCur, reachedOpo;
      lose, won := [], [];
      ghost var c, l, str := cur, List(), strategy[..];
      ReadyFacts(maxPriority);
      NothingTaken(maxPriority);
      if curNumNodes == 0 {
        NoStep(maxPriority);
        NoStepExact(maxPriority);
        return;
      }
      if precOpo < minDominion {
        reachedOpo' := true;
        NoStep(maxPriority);
        return;
      }
      iterations := iterations + 1;
      var nodes;
      ghost var base, a;
      nodes, numNodesInH, reachedCur', reachedOpo', base, a := Descend(maxPriority, precCur, precOpo, reachedCur, reachedOpo);
      ghost var str1 := strategy[..];
      lose := nodes;
      Outside(c, l, str);
      LostBelowTop(maxPriority, lose, base, a);
      changed, won := TakeOut(maxPriority, nodes);
      Conclude(maxPriority, c, l, str, str1, won);
      if Exact(precCur, precOpo) {
        StepResult(game, c, maxPriority, maxPriority % 2, base, a, str1, lose, won, strategy[..]);
      }
    }

    lemma NothingTaken(maxPriority: nat)
      requires Ready(maxPriority)
      ensures cur == cur - Elements([]) && Elements([]) <= cur
      ensures Attracted(game, cur, 1 - maxPriority % 2, 0, [], strategy[..])
      ensures Saturated(game, cur, 1 - maxPriority % 2, Elements([]))
    {
      assert Elements([]) == {};
      SaturatedEmpty(game, cur, 1 - maxPriority % 2);
    }

    /** The vertices of the highest priority are not handed down to the recursion. */
    lemma LostBelowTop(maxPriority: nat, lose: seq<nat>, base: nat, a: seq<nat>)
      requires Ready(maxPriority) && Elements(lose) <= cur - Elements(a) && Attracted(game, cur, maxPriority % 2, base, a, strategy[..])
      requires forall v :: v in a[..base] <==> v in cur && game.priority[v] == maxPriority
      ensures forall v :: v in lose ==> v < game.Size() && game.priority[v] < maxPriority
    {
      forall v | v in lose ensures v < game.Size() && game.priority[v] < maxPriority {
        assert v in Elements(lose);
      }
    }

    lemma Outside(c: set<nat>, l: Links, str: seq<int>)
      requires Untouched(c, l, str)
      ensures Steady(c, str)
    {
    }

    lemma Conclude(maxPriority: nat, c: set<nat>, l: Links, str: seq<int>, str1: seq<int>, won: seq<nat>)
      requires Ready(maxPriority) && Within(game, c) && cur == c - Elements(won) && Elements(won) <= c
      requires Saturated(game, c, 1 - maxPriority % 2, Elements(won))
      requires |str| == |str1| == game.Size() && Untouched(c, l, str1)
      requires forall v :: 0 <= v < game.Size() && v !in c ==> str1[v] == str[v]
      ensures Reduced(c, maxPriority) && c - cur == Elements(won) && Untouched(c, l, str)
    {
      assert c - cur == Elements(won);
    }

    lemma NoStep(maxPriority: nat)
      requires Ready(maxPriority)
      ensures Reduced(cur, maxPriority) && Untouched(cur, List(), strategy[..])
    {
      SaturatedEmpty(game, cur, 1 - maxPriority % 2);
      assert cur - cur == {};
    }

    lemma NoStepExact(maxPriority: nat)
      requires Ready(maxPriority) && curNumNodes == 0
      ensures Dominion(game, cur, cur - cur, 1 - maxPriority % 2, strategy[..])
      ensures KernelLeft(game, cur, maxPriority, maxPriority % 2, strategy[..])
    {
      hide Dominion, KernelLeft;
      assert cur == {} == cur - cur;
      EmptyKernel(game, maxPriority, maxPriority % 2, strategy[..]);
      EmptyDominion(game, {}, 1 - maxPriority % 2, strategy[..]);
    }

    /** Two reductions in a row: `d` has been reached from `c`, and now the current game from `d`. */
    lemma Together(maxPriority: nat, c: set<nat>, d: set<nat>, l: Links, str: seq<int>, l': Links, str': seq<int>)
      requires game.Valid() && Within(game, c) && d <= c && Saturated(game, c, 1 - maxPriority % 2, c - d)
      requires Agree(c, l', str', l, str) && Reduced(d, maxPriority) && Untouched(d, l', str')
      ensures Reduced(c, maxPriority) && Untouched(c, l, str)
    {
      AgreeTrans(c, d, List(), strategy[..], l', str', l, str);
      hide Agree, Saturated;
      assert c - (c - d) == d;
      SaturatedUnion(game, c, 1 - maxPriority % 2, c - d, d - cur);
      assert (c - d) + (d - cur) == c - cur;
    }

    lemma TogetherExact(maxPriority: nat, c: set<nat>, d: set<nat>, l': Links, str': seq<int>)
      requires Reduced(d, maxPriority) && Untouched(d, l', str') && d <= c
      requires Frame(game, c, strategy[..]) && |str'| == game.Size()
      requires Dominion(game, c, c - d, 1 - maxPriority % 2, str')
      requires Dominion(game, d, d - cur, 1 - maxPriority % 2, strategy[..])
      ensures Dominion(game, c, c - cur, 1 - maxPriority % 2, strategy[..])
    {
      hide Dominion;
      assert c - (c - d) == d;
      DominionStable(game, c, c - d, 1 - maxPriority % 2, str', strategy[..]);
      DominionUnion(game, c, c - d, d - cur, 1 - maxPriority % 2, strategy[..]);
      assert (c - d) + (d - cur) == c - cur;
    }

    /** Steps until nothing is added any more. */
    method RepeatStep(maxPriority: nat, precCur: nat, precOpo: nat, reachedCur: bool, reachedOpo: bool)
      returns (numNodesInH: int, reachedCur': bool, reachedOpo': bool)
      requires Ready(maxPriority)
      modifies this`curFirstNode, this`curNumNodes, this`cur, this`iterations
      modifies curNodesBm, curNodesNext, curNodesPrev, numSuccessors, isInAttractor, strategy
      ensures Reduced(old(cur), maxPriority)
      ensures Untouched(old(cur), old(List()), old(strategy[..]))
      ensures Exact(precCur, precOpo) ==> Dominion(game, old(cur), old(cur) - cur, 1 - maxPriority % 2, strategy[..])
      ensures Exact(precCur, precOpo) ==> KernelLeft(game, cur, maxPriority, maxPriority % 2, strategy[..])
      decreases maxPriority + 1, 2, 0
    {
      hide Game.Valid, Game.Sorted, Ring, Represents, Clean, Ready, Reduced, Untouched, Saturated, NoDeadEnds;
      hide Dominion, KernelLeft;
      numNodesInH, reachedCur', reachedOpo' := INT_MAX, reachedCur, reachedOpo;
      ghost var c, l, str := cur, List(), strategy[..];
      ReadyFacts(maxPriority);
      NoStep(maxPriority);
      NoneRemoved(maxPriority);
      var changed := true;
      while changed
        invariant Ready(maxPriority) && cur <= c
        invariant Reduced(c, maxPriority) && Untouched(c, l, str)
        invariant Exact(precCur, precOpo) ==> Dominion(game, c, c - cur, 1 - maxPriority % 2, strategy[..])
        invariant Exact(precCur, precOpo) && !changed ==> KernelLeft(game, cur, maxPriority, maxPriority % 2, strategy[..])
        decreases |cur|, changed
      {
        ghost var d, l', str' := cur, List(), strategy[..];
        Before(maxPriority, c, l, str);
        ghost var lose, won;
        changed, numNodesInH, reachedCur', reachedOpo', lose, won := DoStep(maxPriority, precCur, precOpo, reachedCur', reachedOpo');
        Together(maxPriority, c, d, l, str, l', str');
        if Exact(precCur, precOpo) { TogetherExact(maxPriority, c, d, l', str'); }
        ReducedFacts(maxPriority, d);
      }
    }

    lemma NoneRemoved(maxPriority: nat)
      requires Ready(maxPriority)
      ensures Dominion(game, cur, cur - cur, 1 - maxPriority % 2, strategy[..])
    {
      assert cur - cur == {};
      EmptyDominion(game, cur, 1 - maxPriority % 2, strategy[..]);
    }

    lemma Before(maxPriority: nat, c: set<nat>, l: Links, str: seq<int>)
      requires Reduced(c, maxPriority) && Untouched(c, l, str)
      ensures Within(game, c) && Saturated(game, c, 1 - maxPriority % 2, c - cur) && Agree(c, List(), strategy[..], l, str)
      ensures Frame(game, c, strategy[..])
    {
    }

    lemma ReducedFacts(maxPriority: nat, d: set<nat>)
      requires Reduced(d, maxPriority)
      ensures Ready(maxPriority) && cur <= d && |cur| <= |d| && (cur != d ==> |cur| < |d|)
    {
      SubsetSize(cur, d);
      if cur != d {
        var x :| x in d && x !in cur;
        SubsetSize(cur, d - {x});
      }
    }

    /** A step in the course of reducing `c`. */
    method StepWithin(maxPriority: nat, precCur: nat, precOpo: nat, reachedCur: bool, reachedOpo: bool,
                      ghost c: set<nat>, ghost l: Links, ghost str: seq<int>)
      returns (changed: bool, numNodesInH: int, reachedCur': bool, reachedOpo': bool)
      requires Ready(maxPriority) && Reduced(c, maxPriority) && Untouched(c, l, str)
      modifies this`curFirstNode, this`curNumNodes, this`cur, this`iterations
      modifies curNodesBm, curNodesNext, curNodesPrev, numSuccessors, isInAttractor, strategy
      ensures Ready(maxPriority) && Reduced(c, maxPriority) && Untouched(c, l, str)
      ensures |cur| <= |old(cur)| && (changed ==> |cur| < |old(cur)|)
      decreases maxPriority + 1, 2, 0
    {
      hide Game.Valid, Game.Sorted, Ring, Represents, Clean, Ready, Reduced, Untouched, Saturated, NoDeadEnds;
      ghost var d, l', str' := cur, List(), strategy[..];
      Before(maxPriority, c, l, str);
      ReducedFacts(maxPriority, c);
      ghost var lose, won;
      changed, numNodesInH, reachedCur', reachedOpo', lose, won := DoStep(maxPriority, precCur, precOpo, reachedCur, reachedOpo);
      Together(maxPriority, c, d, l, str, l', str');
      ReducedFacts(maxPriority, d);
    }

    method SolveWarsaw(maxPriority: nat, precCur: nat, precOpo: nat, reachedCur: bool, reachedOpo: bool)
      returns (reachedCur': bool, reachedOpo': bool)
      requires Ready(maxPriority)
      modifies this`curFirstNode, this`curNumNodes, this`cur, this`iterations
      modifies curNodesBm, curNodesNext, curNodesPrev, numSuccessors, isInAttractor, strategy
      ensures Reduced(old(cur), maxPriority) && Untouched(old(cur), old(List()), old(strategy[..]))
      decreases maxPriority + 1, 3, 0
    {
      hide Ready, Reduced, Untouched;
      ghost var c, l, str := cur, List(), strategy[..];
      NoStep(maxPriority);
      reachedCur', reachedOpo' := reachedCur, reachedOpo;
      var numNodesInH, reachedOpoLast, atrGreater := INT_MAX, false, true;
      while atrGreater
        invariant Ready(maxPriority) && Reduced(c, maxPriority) && Untouched(c, l, str)
        decreases |cur|, atrGreater
      {
        atrGreater, numNodesInH, reachedCur', reachedOpoLast :=
          StepWithin(maxPriority, precCur, precOpo / 2, reachedCur', false, c, l, str);
        reachedOpo' := reachedOpo' || reachedOpoLast;
      }
      if numNodesInH <= precOpo / 2 || !reachedOpoLast { return; }
      var changed;
      changed, numNodesInH, reachedCur', reachedOpo' :=
        StepWithin(maxPriority, precCur, precOpo, reachedCur', reachedOpo', c, l, str);
      while changed
        invariant Ready(maxPriority) && Reduced(c, maxPriority) && Untouched(c, l, str)
        decreases |cur|, changed
      {
        changed, numNodesInH, reachedCur', reachedOpo' :=
          StepWithin(maxPriority, precCur, precOpo / 2, reachedCur', reachedOpo', c, l, str);
      }
    }

    method SolveLiverpool(maxPriority: nat, precCur: nat, precOpo: nat, reachedCur: bool, reachedOpo: bool,
                          ghost c: set<nat>, ghost l: Links, ghost str: seq<int>)
      returns (reachedCur': bool, reachedOpo': bool)
      requires Ready(maxPriority) && Reduced(c, maxPriority) && Untouched(c, l, str)
      modifies this`curFirstNode, this`curNumNodes, this`cur, this`iterations
      modifies curNodesBm, curNodesNext, curNodesPrev, numSuccessors, isInAttractor, strategy
      ensures Ready(maxPriority) && Reduced(c, maxPriority) && Untouched(c, l, str)
      decreases maxPriority + 1, 3, precOpo
    {
      hide Reduced, Untouched, Represents, Clean, NoDeadEnds;
      reachedCur', reachedOpo' := reachedCur, reachedOpo;
      var initialNumNodes := curNumNodes;
      if precOpo / 2 >= minDominion {
        reachedCur', reachedOpo' := SolveLiverpool(maxPriority, precCur, precOpo / 2, reachedCur', reachedOpo', c, l, str);
      }
      if initialNumNodes <= precOpo / 2 { return; }
      var changed, dummy;
      changed, dummy, reachedCur', reachedOpo' := StepWithin(maxPriority, precCur, precOpo, reachedCur', reachedOpo', c, l, str);
      if changed && precOpo / 2 >= minDominion {
        reachedCur', reachedOpo' := SolveLiverpool(maxPriority, precCur, precOpo / 2, reachedCur', reachedOpo', c, l, str);
      }
    }

    /** Solve the current game, which is left as it was found: the returned vertices are a trap for the opponent, and with
        full precision the standard variant returns exactly what the player of the highest priority wins, with winning
        strategies for both players. */
    method Solve(maxPriority: int, precCur: nat, precOpo: nat, reachedCur: bool, reachedOpo: bool)
      returns (winningRegion: seq<nat>, reachedCur': bool, reachedOpo': bool)
      requires Ready(maxPriority)
      modifies this`curFirstNode, this`curNumNodes, this`cur, this`iterations
      modifies curNodesBm, curNodesNext, curNodesPrev, numSuccessors, isInAttractor, strategy
      ensures Ready(maxPriority) && cur == old(cur) && List() == old(List())
      ensures Untouched(old(cur), old(List()), old(strategy[..]))
      ensures Increasing(winningRegion) && Elements(winningRegion) <= cur
      ensures Saturated(game, cur, 1 - maxPriority % 2, cur - Elements(winningRegion))
      ensures Exact(precCur, precOpo) ==>
        CorrectSolution(game, cur, WinOf(game, maxPriority % 2, Elements(winningRegion)), strategy[..])
      decreases maxPriority + 1, 4, 0
    {
      hide Game.Valid, Game.Sorted, Ring, Represents, Clean, Ready, Reduced, Untouched, Saturated, NoDeadEnds;
      hide Dominion, KernelLeft, CorrectSolution, WinOf, Elements, Increasing, Aims;
      winningRegion, reachedCur', reachedOpo' := [], reachedCur, reachedOpo;
      ghost var c, l, str := cur, List(), strategy[..];
      ReadyFacts(maxPriority);
      if curNumNodes == 0 {
        NothingToSolve(maxPriority);
        return;
      }
      var savedNodes := GetCurNodes();
      NonEmpty(maxPriority, savedNodes);
      match variant {
        case Standard =>
          var numNodesInH;
          numNodesInH, reachedCur', reachedOpo' := RepeatStep(maxPriority, precCur, precOpo, reachedCur', reachedOpo');
        case Warsaw =>
          reachedCur', reachedOpo' := SolveWarsaw(maxPriority, precCur, precOpo, reachedCur', reachedOpo');
        case Liverpool =>
          NoStep(maxPriority);
          reachedCur', reachedOpo' := SolveLiverpool(maxPriority, precCur, precOpo, reachedCur', reachedOpo', c, l, str);
      }
      ReducedFacts(maxPriority, c);
      winningRegion := Finish(maxPriority, precCur, precOpo, savedNodes, c, l, str);
    }

    lemma NothingToSolve(maxPriority: int)
      requires Ready(maxPriority) && curNumNodes == 0
      ensures Untouched(cur, List(), strategy[..]) && Increasing([]) && Elements([]) <= cur
      ensures Saturated(game, cur, 1 - maxPriority % 2, cur - Elements([]))
      ensures CorrectSolution(game, cur, WinOf(game, maxPriority % 2, Elements([])), strategy[..])
    {
      hide Dominion;
      assert cur == {} == cur - Elements([]) == Elements([]);
      EmptyDominion(game, {}, maxPriority % 2, strategy[..]);
      EmptyDominion(game, {}, 1 - maxPriority % 2, strategy[..]);
      TwoDominions(game, {}, {}, maxPriority % 2, strategy[..]);
    }

    lemma NonEmpty(maxPriority: int, nodes: seq<nat>)
      requires Ready(maxPriority) && curNumNodes != 0 && Elements(nodes) == cur
      ensures nodes != [] && maxPriority >= 0
    {
      assert nodes == [] ==> cur == {};
      assert nodes != [] ==> nodes[0] in cur;
    }

    lemma Solved(maxPriority: nat, c: set<nat>, top: seq<nat>, str1: seq<int>)
      requires Represents() && cur <= c && Frame(game, c, str1) && strategy.Length == |str1|
      requires forall v :: v in top <==> v in cur && game.priority[v] == maxPriority
      requires forall v :: v in top ==> Aims(game, cur, v, strategy[v])
      requires forall v :: 0 <= v < game.Size() && v !in top ==> strategy[v] == str1[v]
      requires Dominion(game, c, c - cur, 1 - maxPriority % 2, str1)
      requires KernelLeft(game, cur, maxPriority, maxPriority % 2, str1)
      requires Saturated(game, c, 1 - maxPriority % 2, c - cur)
      ensures CorrectSolution(game, c, WinOf(game, maxPriority % 2, cur), strategy[..])
    {
      hide Dominion, KernelLeft, CorrectSolution, Saturated;
      DominionStable(game, c, c - cur, 1 - maxPriority % 2, str1, strategy[..]);
      KernelStable(game, cur, maxPriority, maxPriority % 2, str1, strategy[..]);
      forall u | u in cur && game.priority[u] == maxPriority && game.owner[u] == maxPriority % 2
        ensures strategy[u] >= 0 && strategy[u] in cur && game.Edge(u, strategy[u])
      {
        assert Aims(game, cur, u, strategy[u]);
      }
      KernelSolves(game, c, cur, maxPriority, maxPriority % 2, strategy[..]);
    }

    lemma KeptOutside(c: set<nat>, l: Links, str: seq<int>)
      requires Shaped() && Untouched(c, l, str)
      ensures |l.next| == |l.prev| == |str| == game.Size()
      ensures forall v :: 0 <= v < game.Size() && v !in c ==>
        curNodesNext[v] == l.next[v] && curNodesPrev[v] == l.prev[v] && strategy[v] == str[v]
    {
    }

    lemma Restored(c: set<nat>, l: Links, str: seq<int>)
      requires Represents() && cur == c != {} && Ring(c, l) && |l.next| == game.Size() && |str| == game.Size()
      requires forall v :: 0 <= v < game.Size() && v !in c ==> curNodesNext[v] == l.next[v] && curNodesPrev[v] == l.prev[v]
      requires forall v :: 0 <= v < game.Size() && v !in c ==> strategy[v] == str[v]
      ensures List() == l && Untouched(c, l, str)
    {
      RingUnique(c, List(), l);
    }

    /** Choose moves for the vertices of the highest priority that are left, and bring the saved game back. */
    method Finish(maxPriority: nat, ghost precCur: nat, ghost precOpo: nat, savedNodes: seq<nat>, ghost c: set<nat>, ghost l: Links, ghost str: seq<int>)
      returns (winningRegion: seq<nat>)
      requires Ready(maxPriority) && Reduced(c, maxPriority) && Untouched(c, l, str) && Ring(c, l) && |l.next| == game.Size()
      requires Increasing(savedNodes) && savedNodes != [] && Elements(savedNodes) == c
      requires NoDeadEnds(game, c) && forall v :: v in c ==> game.priority[v] <= maxPriority
      requires Exact(precCur, precOpo) ==> Dominion(game, c, c - cur, 1 - maxPriority % 2, strategy[..])
      requires Exact(precCur, precOpo) ==> KernelLeft(game, cur, maxPriority, maxPriority % 2, strategy[..])
      modifies this`curFirstNode, this`curNumNodes, this`cur
      modifies curNodesBm, curNodesNext, curNodesPrev, strategy
      ensures Ready(maxPriority) && cur == c && List() == l && Untouched(c, l, str)
      ensures Increasing(winningRegion) && Elements(winningRegion) <= c
      ensures Saturated(game, c, 1 - maxPriority % 2, c - Elements(winningRegion))
      ensures Exact(precCur, precOpo) ==>
        CorrectSolution(game, c, WinOf(game, maxPriority % 2, Elements(winningRegion)), strategy[..])
    {
      hide Game.Valid, Game.Sorted, Ring, Represents, Clean, Ready, Reduced, Untouched, Saturated, NoDeadEnds;
      hide Dominion, KernelLeft, CorrectSolution, WinOf, Increasing;
      ghost var str1 := strategy[..];
      Before(maxPriority, c, l, str);
      ReducedFacts(maxPriority, c);
      ReadyFacts(maxPriority);
      KeptOutside(c, l, str);
      assert savedNodes[0] in c;
      var top := GetNodesOfMaxPriority(maxPriority);
      if Exact(precCur, precOpo) { Solved(maxPriority, c, top, str1); }
      winningRegion := GetCurNodes();
      SetCurNodes(savedNodes);
      Restored(c, l, str);
      ReadyAgain(maxPriority);
    }
  }
}
