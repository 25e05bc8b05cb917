/** The bookkeeping of an attractor computation with counters. */
module AttractorCounting {
  import opened ParityGames
  import opened EdgeCounting
  import opened Zielonka

  /** The counter of `u` while the edges to the `seen` predecessors of the current vertex and to all of `p` have been
      taken off: untouched if there are none, and positive as long as `u` can escape. */
  ghost predicate Counted(g: Game, c: set<nat>, player: int, p: set<nat>, seen: seq<nat>, u: nat, count: int)
    requires g.Valid() && u < g.Size()
  {
    var untouched := u !in seen && forall x :: x in p ==> !g.Edge(u, x);
    if g.owner[u] == player then
      untouched
    else if count == -1 then
      untouched
    else
      count == CountIn(g.outs[u], c) - CountIn(g.outs[u], p) - multiset(seen)[u] > 0
  }

  lemma UntouchedCount(g: Game, u: nat, p: set<nat>)
    requires g.Valid() && u < g.Size() && forall x :: x in p ==> !g.Edge(u, x)
    ensures CountIn(g.outs[u], p) == 0
  {
    CountNone(g.outs[u], p);
  }

  lemma {:induction false} CountNone(edges: seq<nat>, p: set<nat>)
    requires forall k :: 0 <= k < |edges| ==> edges[k] !in p
    ensures CountIn(edges, p) == 0
  {
    if edges != [] {
      forall k | 0 <= k < |edges[1..]| ensures edges[1..][k] !in p { assert edges[1..][k] == edges[k + 1]; }
      CountNone(edges[1..], p);
    }
  }

  /** Once its counter is used up, all successors of `u` in the game have been attracted. */
  lemma UsedUp(g: Game, c: set<nat>, p: set<nat>, v: nat, seen: seq<nat>, u: nat)
    requires g.Valid() && Within(g, c) && u < g.Size() && p <= c && v in c && v !in p
    requires seen <= g.ins[v] && CountIn(g.outs[u], c) - CountIn(g.outs[u], p) - multiset(seen)[u] == 0
    ensures forall x :: x in c && g.Edge(u, x) ==> x in p + {v}
  {
    CountAdd(g.outs[u], p, v);
    assert g.ins[v] == seen + g.ins[v][|seen|..];
    assert multiset(g.ins[v])[u] == multiset(g.outs[u])[v];
    CountSubset(g.outs[u], p + {v}, c);
  }

  /** A successor of `u` in the game that has not been taken off yet is still counted. */
  lemma StillCounted(g: Game, c: set<nat>, p: set<nat>, v: nat, seen: seq<nat>, u: nat)
    requires g.Valid() && Within(g, c) && u < g.Size() && p <= c && v in c && v !in p
    requires seen <= g.ins[v]
    ensures CountIn(g.outs[u], c) - CountIn(g.outs[u], p) - multiset(seen)[u] >= 0
  {
    CountAdd(g.outs[u], p, v);
    assert g.ins[v] == seen + g.ins[v][|seen|..];
    assert multiset(g.ins[v])[u] == multiset(g.outs[u])[v];
    CountSubset(g.outs[u], p + {v}, c);
  }

  /** When all predecessors of `v` have been seen, `v` joins the processed vertices. */
  lemma CountedNext(g: Game, c: set<nat>, player: int, p: set<nat>, v: nat, u: nat, count: int)
    requires g.Valid() && Within(g, c) && u < g.Size() && v < g.Size() && v !in p
    requires Counted(g, c, player, p, g.ins[v], u, count)
    ensures Counted(g, c, player, p + {v}, [], u, count)
  {
    InsOuts(g, u, v);
    CountAdd(g.outs[u], p, v);
    assert multiset(g.ins[v])[u] == multiset(g.outs[u])[v];
  }

  /** The counters of all vertices of the game that have not been attracted. */
  ghost predicate Counts(g: Game, c: set<nat>, player: int, nodes: seq<nat>, h: nat, seen: seq<nat>, num: seq<int>)
    requires g.Valid() && Within(g, c) && |num| == g.Size() && h <= |nodes|
  {
    forall u :: u in c && u !in nodes ==> Counted(g, c, player, Elements(nodes[..h]), seen, u, num[u])
  }

  lemma CountedOther(g: Game, c: set<nat>, player: int, p: set<nat>, seen: seq<nat>, u: nat, x: nat, count: int)
    requires g.Valid() && x < g.Size() && x != u && Counted(g, c, player, p, seen, x, count)
    ensures Counted(g, c, player, p, seen + [u], x, count)
  {
    assert multiset(seen + [u])[x] == multiset(seen)[x];
  }

  /** One more predecessor has been seen: only its own counter matters. */
  lemma CountsStep(g: Game, c: set<nat>, player: int, nodes: seq<nat>, nodes': seq<nat>, h: nat, seen: seq<nat>, u: nat,
                   num: seq<int>, num': seq<int>)
    requires g.Valid() && Within(g, c) && |num| == |num'| == g.Size() && h <= |nodes|
    requires Counts(g, c, player, nodes, h, seen, num)
    requires nodes' == nodes || nodes' == nodes + [u]
    requires forall x :: 0 <= x < g.Size() && x != u ==> num'[x] == num[x]
    requires u in c && u !in nodes' ==> Counted(g, c, player, Elements(nodes[..h]), seen + [u], u, num'[u])
    ensures h <= |nodes'| && Counts(g, c, player, nodes', h, seen + [u], num')
  {
    hide Counted;
    assert nodes'[..h] == nodes[..h];
    forall x | x in c && x !in nodes'
      ensures Counted(g, c, player, Elements(nodes'[..h]), seen + [u], x, num'[x])
    {
      if x != u { CountedOther(g, c, player, Elements(nodes[..h]), seen, u, x, num[x]); }
    }
  }

  /** All predecessors of the next vertex have been seen. */
  lemma CountsNext(g: Game, c: set<nat>, player: int, nodes: seq<nat>, h: nat, num: seq<int>)
    requires g.Valid() && Within(g, c) && |num| == g.Size() && h < |nodes| && nodes[h] in c
    requires forall j, k :: 0 <= j < k < |nodes| ==> nodes[j] != nodes[k]
    requires Counts(g, c, player, nodes, h, g.ins[nodes[h]], num)
    ensures Counts(g, c, player, nodes, h + 1, [], num)
  {
    hide Counted;
    assert nodes[..h + 1] == nodes[..h] + [nodes[h]];
    assert Elements(nodes[..h + 1]) == Elements(nodes[..h]) + {nodes[h]};
    forall x | x in c && x !in nodes ensures Counted(g, c, player, Elements(nodes[..h + 1]), [], x, num[x]) {
      CountedNext(g, c, player, Elements(nodes[..h]), nodes[h], x, num[x]);
    }
  }

  /** When the queue is empty nothing more can be attracted. */
  lemma CountsSaturated(g: Game, c: set<nat>, player: int, nodes: seq<nat>, num: seq<int>)
    requires g.Valid() && Within(g, c) && NoDeadEnds(g, c) && |num| == g.Size() && Elements(nodes) <= c
    requires Counts(g, c, player, nodes, |nodes|, [], num)
    ensures Saturated(g, c, player, Elements(nodes))
  {
    hide Counted;
    assert nodes[..|nodes|] == nodes;
    forall u | u in c && u !in Elements(nodes) ensures Escapes(g, c, player, Elements(nodes), u) {
      CountedEscapes(g, c, player, Elements(nodes), u, num[u]);
    }
  }

  lemma CountedEscapes(g: Game, c: set<nat>, player: int, a: set<nat>, u: nat, count: int)
    requires g.Valid() && Within(g, c) && u in c && HasSuccessor(g, c, u) && a <= c
    requires Counted(g, c, player, a, [], u, count)
    ensures Escapes(g, c, player, a, u)
  {
    if g.owner[u] != player {
      if count == -1 {
        var v :| v in c && g.Edge(u, v);
        assert v in c - a;
      } else {
        CountSubset(g.outs[u], a, c);
        var k :| 0 <= k < |g.outs[u]| && g.outs[u][k] in c && g.outs[u][k] !in a;
        assert g.outs[u][k] in c - a && g.Edge(u, g.outs[u][k]);
      }
    }
  }

  /** A vertex that the player can force into the attractor extends it. */
  lemma AttractedStep(g: Game, c: set<nat>, player: int, base: nat, nodes: seq<nat>, str: seq<int>, u: nat, str': seq<int>)
    requires Frame(g, c, str) && |str'| == g.Size() && Attracted(g, c, player, base, nodes, str)
    requires u in c && u !in nodes && forall x :: 0 <= x < g.Size() && x != u ==> str'[x] == str[x]
    requires if g.owner[u] == player
      then str'[u] >= 0 && str'[u] in nodes && g.Edge(u, str'[u])
      else forall v :: v in c && g.Edge(u, v) ==> v in nodes
    ensures Attracted(g, c, player, base, nodes + [u], str')
  {
    var a := nodes + [u];
    assert a[..|nodes|] == nodes;
    forall k | base <= k < |a| ensures Forced(g, c, player, a, k, str') {
      if k < |nodes| {
        assert Forced(g, c, player, nodes, k, str) && a[..k] == nodes[..k];
      }
    }
  }
}
