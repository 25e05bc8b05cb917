/** Counting the edges of an edge list that lead into a set of vertices, with multiplicity. */
module EdgeCounting {

  ghost function CountIn(edges: seq<nat>, s: set<nat>): (n: nat)
    ensures n <= |edges|
  {
    if edges == [] then 0 else (if edges[0] in s then 1 else 0) + CountIn(edges[1..], s)
  }

  /** Adding `v` to the set adds as many edges as the list has edges to `v`. */
  lemma {:induction false} CountAdd(edges: seq<nat>, s: set<nat>, v: nat)
    requires v !in s
    ensures CountIn(edges, s + {v}) == CountIn(edges, s) + multiset(edges)[v]
  {
    if edges != [] {
      CountAdd(edges[1..], s, v);
      assert edges == [edges[0]] + edges[1..];
    }
  }

  /** A subset that counts as many edges contains the targets of all of them. */
  lemma {:induction false} CountSubset(edges: seq<nat>, s: set<nat>, t: set<nat>)
    requires s <= t
    ensures CountIn(edges, s) <= CountIn(edges, t)
    ensures CountIn(edges, s) == CountIn(edges, t) <==> forall k :: 0 <= k < |edges| && edges[k] in t ==> edges[k] in s
  {
    if edges != [] {
      CountSubset(edges[1..], s, t);
      if forall k :: 0 <= k < |edges| && edges[k] in t ==> edges[k] in s {
        forall k | 0 <= k < |edges[1..]| && edges[1..][k] in t ensures edges[1..][k] in s { assert edges[1..][k] == edges[k + 1]; }
      } else {
        var k :| 0 <= k < |edges| && edges[k] in t && edges[k] !in s;
        if k > 0 { assert edges[1..][k - 1] == edges[k]; }
      }
    }
  }

  /** All edges are counted exactly when all their targets are in the set. */
  lemma {:induction false} CountAll(edges: seq<nat>, s: set<nat>)
    ensures CountIn(edges, s) == |edges| <==> forall k :: 0 <= k < |edges| ==> edges[k] in s
  {
    if edges != [] {
      CountAll(edges[1..], s);
      if CountIn(edges, s) == |edges| {
        forall k | 0 <= k < |edges| ensures edges[k] in s { if k > 0 { assert edges[k] == edges[1..][k - 1]; } }
      } else if edges[0] in s {
        var k :| 0 <= k < |edges[1..]| && edges[1..][k] !in s;
        assert edges[k + 1] !in s;
      }
    }
  }
}
