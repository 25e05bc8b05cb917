/** The arrays of a game (game.cpp): renaming vertices in place, and building the incoming edges. */
module GameArrays {
  import opened ParityGames
  import opened Permutations

  /** The entries of vertex `v` in all the parallel arrays. */
  datatype Entry = Entry(priority: nat, owner: Player, firstout: nat, outcount: nat, firstin: nat, incount: nat,
                         solved: bool, winner: Player, strategy: int)

  /** Everything that renaming touches. */
  datatype Store = Store(outedges: seq<int>, inedges: seq<int>, entries: seq<Entry>)

  /** The parallel sequences as one sequence of entries. */
  function Zip(p: seq<nat>, o: seq<Player>, fo: seq<nat>, oc: seq<nat>, fi: seq<nat>, ic: seq<nat>,
               so: seq<bool>, w: seq<Player>, st: seq<int>): (s: seq<Entry>)
    requires |p| == |o| == |fo| == |oc| == |fi| == |ic| == |so| == |w| == |st|
    ensures |s| == |p|
    ensures forall i :: 0 <= i < |s| ==> s[i] == Entry(p[i], o[i], fo[i], oc[i], fi[i], ic[i], so[i], w[i], st[i])
  {
    seq(|p|, i requires 0 <= i < |p| => Entry(p[i], o[i], fo[i], oc[i], fi[i], ic[i], so[i], w[i], st[i]))
  }

  lemma ZipSwapped(p: seq<nat>, o: seq<Player>, fo: seq<nat>, oc: seq<nat>, fi: seq<nat>, ic: seq<nat>,
                   so: seq<bool>, w: seq<Player>, st: seq<int>, i: nat, k: nat)
    requires |p| == |o| == |fo| == |oc| == |fi| == |ic| == |so| == |w| == |st| && i < |p| && k < |p|
    ensures Zip(Swapped(p, i, k), Swapped(o, i, k), Swapped(fo, i, k), Swapped(oc, i, k), Swapped(fi, i, k), Swapped(ic, i, k),
      Swapped(so, i, k), Swapped(w, i, k), Swapped(st, i, k)) == Swapped(Zip(p, o, fo, oc, fi, ic, so, w, st), i, k)
  {
  }

  method Swap<T>(a: array<T>, i: nat, k: nat)
    requires i < a.Length && k < a.Length
    modifies a
    ensures a[..] == Swapped(old(a[..]), i, k)
  {
    a[i], a[k] := a[k], a[i];
  }

  /** The edge list that starts at `start` and ends before the next -1. */
  function Row(edges: seq<int>, start: nat): seq<nat>
    decreases |edges| - start
  {
    if start < |edges| && edges[start] >= 0 then [edges[start]] + Row(edges, start + 1) else []
  }

  function Rename(m: seq<nat>, e: int): int {
    if 0 <= e < |m| then m[e] else e
  }

  function RenameAll(m: seq<nat>, s: seq<int>): (t: seq<int>)
    ensures |t| == |s| && forall i :: 0 <= i < |s| ==> t[i] == Rename(m, s[i])
  {
    seq(|s|, i requires 0 <= i < |s| => Rename(m, s[i]))
  }

  /** Vertex `i` has moved to position `m[i]`, and all mentions of vertices have been renamed. */
  ghost predicate Moved(m: seq<nat>, s: Store, t: Store) {
    && |s.entries| == |t.entries| == |m|
    && t.outedges == RenameAll(m, s.outedges)
    && t.inedges == RenameAll(m, s.inedges)
    && forall i :: 0 <= i < |m| ==> m[i] < |m| && t.entries[m[i]] == s.entries[i].(strategy := Rename(m, s.entries[i].strategy))
  }

  /** All vertices that are mentioned exist. */
  ghost predicate InRange(s: Store) {
    && (forall i :: 0 <= i < |s.outedges| ==> -1 <= s.outedges[i] < |s.entries|)
    && (forall i :: 0 <= i < |s.inedges| ==> -1 <= s.inedges[i] < |s.entries|)
    && (forall i :: 0 <= i < |s.entries| ==> -1 <= s.entries[i].strategy < |s.entries|)
  }

  lemma MovedInRange(m: seq<nat>, s: Store, t: Store)
    requires Perm(m) && InRange(s) && Moved(m, s, t)
    ensures InRange(t)
  {
    forall j | 0 <= j < |t.entries| ensures -1 <= t.entries[j].strategy < |t.entries| {
      Hit(m, j);
      var i :| 0 <= i < |m| && m[i] == j;
      assert t.entries[m[i]] == s.entries[i].(strategy := Rename(m, s.entries[i].strategy));
    }
  }

  /** Renaming back restores everything. */
  lemma MovedBack(m: seq<nat>, inv: seq<nat>, s: Store, t: Store, u: Store)
    requires Inverses(m, inv) && InRange(s) && Moved(m, s, t) && Moved(inv, t, u)
    ensures u == s
  {
    forall e: int | -1 <= e < |m| ensures Rename(inv, Rename(m, e)) == e { }
    forall i | 0 <= i < |s.outedges| ensures u.outedges[i] == s.outedges[i] { assert Rename(inv, Rename(m, s.outedges[i])) == s.outedges[i]; }
    forall i | 0 <= i < |s.inedges| ensures u.inedges[i] == s.inedges[i] { assert Rename(inv, Rename(m, s.inedges[i])) == s.inedges[i]; }
    forall i | 0 <= i < |m| ensures u.entries[i] == s.entries[i] {
      assert u.entries[inv[m[i]]] == t.entries[m[i]].(strategy := Rename(inv, t.entries[m[i]].strategy));
      assert Rename(inv, Rename(m, s.entries[i].strategy)) == s.entries[i].strategy;
    }
  }

  lemma {:induction false} RenamedRow(m: seq<nat>, edges: seq<int>, start: nat)
    requires forall i :: 0 <= i < |edges| ==> -1 <= edges[i] < |m|
    ensures |Row(RenameAll(m, edges), start)| == |Row(edges, start)|
    ensures forall k :: 0 <= k < |Row(edges, start)| ==>
      Row(edges, start)[k] < |m| && Row(RenameAll(m, edges), start)[k] == m[Row(edges, start)[k]]
    decreases |edges| - start
  {
    if start < |edges| && edges[start] >= 0 { RenamedRow(m, edges, start + 1); }
  }

  class GameArrays {
    const priority: array<nat>
    const owner: array<Player>
    const firstouts: array<nat>
    const outcount: array<nat>
    const firstins: array<nat>
    const incount: array<nat>
    const solved: array<bool>
    const winner: array<Player>
    const strategy: array<int>
    const outedges: array<int>
    const inedges: array<int>
    var isOrdered: bool

    ghost predicate Ok() {
      && priority.Length == owner.Length == firstouts.Length == outcount.Length == firstins.Length == incount.Length
      && priority.Length == solved.Length == winner.Length == strategy.Length
      && priority != firstouts && priority != outcount && priority != firstins && priority != incount
      && firstouts != outcount && firstouts != firstins && firstouts != incount
      && outcount != firstins && outcount != incount && firstins != incount
      && owner != winner && strategy != outedges && strategy != inedges && outedges != inedges
    }

    ghost predicate Apart(mapping: array<nat>) {
      mapping != priority && mapping != firstouts && mapping != outcount && mapping != firstins && mapping != incount
    }

    function Entries(): (s: seq<Entry>)
      requires Ok()
      reads priority, owner, firstouts, outcount, firstins, incount, solved, winner, strategy
      ensures |s| == priority.Length
    {
      Zip(priority[..], owner[..], firstouts[..], outcount[..], firstins[..], incount[..], solved[..], winner[..], strategy[..])
    }

    function Contents(): Store
      requires Ok()
      reads priority, owner, firstouts, outcount, firstins, incount, solved, winner, strategy, outedges, inedges
    {
      Store(outedges[..], inedges[..], Entries())
    }

    /** Swap the entries of two vertices in all the parallel arrays. */
    method SwapVertices(i: nat, k: nat)
      requires Ok() && i < priority.Length && k < priority.Length
      modifies priority, owner, firstouts, outcount, firstins, incount, solved, winner, strategy
      ensures Entries() == Swapped(old(Entries()), i, k)
    {
      ZipSwapped(priority[..], owner[..], firstouts[..], outcount[..], firstins[..], incount[..], solved[..], winner[..],
        strategy[..], i, k);
      hide Zip, Swapped;
      Swap(priority, i, k);
      Swap(owner, i, k);
      Swap(firstouts, i, k);
      Swap(outcount, i, k);
      Swap(firstins, i, k);
      Swap(incount, i, k);
      Swap(solved, i, k);
      Swap(winner, i, k);
      Swap(strategy, i, k);
    }

    /** Rename the vertices mentioned in a list. */
    method RenameIn(mapping: array<nat>, list: array<int>)
      requires forall i :: 0 <= i < list.Length ==> -1 <= list[i] < mapping.Length
      modifies list
      ensures list[..] == RenameAll(mapping[..], old(list[..]))
    {
      for i := 0 to list.Length
        invariant forall k :: 0 <= k < list.Length ==> list[k] == if k < i then Rename(mapping[..], old(list[k])) else old(list[k])
      {
        if list[i] != -1 { list[i] := mapping[list[i]]; }
      }
    }

    /** Apply a permutation, moving each vertex `i` to `mapping[i]`; the mapping is used up. */
    method UnsafePermute(mapping: array<nat>)
      requires Ok() && Apart(mapping) && mapping.Length == priority.Length && Perm(mapping[..]) && InRange(Contents())
      modifies mapping, priority, owner, firstouts, outcount, firstins, incount, solved, winner, strategy, outedges, inedges
      ensures Moved(old(mapping[..]), old(Contents()), Contents())
      ensures forall i :: 0 <= i < mapping.Length ==> mapping[i] == i
    {
      ghost var m, s := mapping[..], Contents();
      assert forall i :: 0 <= i < strategy.Length ==> strategy[i] == s.entries[i].strategy;
      RenameIn(mapping, strategy);
      RenameIn(mapping, outedges);
      RenameIn(mapping, inedges);
      ghost var a := Entries();
      assert forall i :: 0 <= i < |m| ==> a[i] == s.entries[i].(strategy := Rename(m, s.entries[i].strategy));
      Reorder(mapping);
    }

    /** Move the vertex at `i` to where it belongs. */
    method MoveOne(mapping: array<nat>, i: nat, ghost m: seq<nat>, ghost a: seq<Entry>, ghost origin: seq<nat>)
      returns (ghost origin': seq<nat>)
      requires Ok() && Apart(mapping) && mapping.Length == priority.Length && Perm(m) && i < mapping.Length && mapping[i] != i
      requires Tracks(m, a, mapping[..], Entries(), origin) && FixedBelow(mapping[..], i)
      modifies mapping, priority, owner, firstouts, outcount, firstins, incount, solved, winner, strategy
      ensures Tracks(m, a, mapping[..], Entries(), origin') && FixedBelow(mapping[..], i)
      ensures Misplaced(mapping[..]) < Misplaced(old(mapping[..]))
    {
      hide Perm, Entries, Swapped, Misplaced, Tracks;
      TracksInRange(m, a, mapping[..], Entries(), origin, i);
      TracksSwap(m, a, mapping[..], Entries(), origin, i);
      FixedStay(mapping[..], i);
      var k := mapping[i];
      ghost var before := mapping[..];
      mapping[i] := mapping[k];
      mapping[k] := k;
      assert mapping[..] == before[i := before[k]][k := k];
      SwapVertices(i, k);
      origin' := Swapped(origin, i, k);
    }

    /** Swap vertices until each is where it belongs. */
    method Reorder(mapping: array<nat>)
      requires Ok() && Apart(mapping) && mapping.Length == priority.Length && Perm(mapping[..])
      modifies mapping, priority, owner, firstouts, outcount, firstins, incount, solved, winner, strategy
      ensures forall i :: 0 <= i < mapping.Length ==> mapping[i] == i
      ensures forall i :: 0 <= i < mapping.Length ==>
        old(mapping[i]) < |Entries()| && Entries()[old(mapping[i])] == old(Entries())[i]
    {
      hide Perm, Entries, Swapped, Misplaced, Tracks, FixedBelow, Ok;
      ghost var m, a := mapping[..], Entries();
      ghost var origin: seq<nat> := seq(|m|, i requires 0 <= i < |m| => i);
      TracksStart(m, a);
      FixedNone(m);
      for i := 0 to mapping.Length
        invariant Tracks(m, a, mapping[..], Entries(), origin) && FixedBelow(mapping[..], i)
      {
        while mapping[i] != i
          invariant Tracks(m, a, mapping[..], Entries(), origin) && FixedBelow(mapping[..], i)
          decreases Misplaced(mapping[..])
        {
          origin := MoveOne(mapping, i, m, a, origin);
        }
        FixedNext(mapping[..], i);
      }
      FixedAll(mapping[..]);
      forall i | 0 <= i < |m| ensures m[i] < |Entries()| && Entries()[m[i]] == a[i] {
        TracksDone(m, a, mapping[..], Entries(), origin, i);
      }
    }
  
    /** Record whether the vertices are in order of priority. */
    method UpdateOrder()
      requires Ok()
      modifies this`isOrdered
      ensures isOrdered <==> Ordered(priority[..])
    {
      isOrdered := true;
      var i := 1;
      while i < priority.Length
        invariant 1 <= i && isOrdered
        invariant forall j :: 1 <= j < i && j < priority.Length ==> priority[j - 1] <= priority[j]
      {
        if priority[i - 1] > priority[i] {
          isOrdered := false;
          NotOrdered(priority[..], i);
          return;
        }
        i := i + 1;
      }
      StepwiseOrdered(priority[..]);
    }

    method Permute(mapping: array<nat>)
      requires Ok() && Apart(mapping) && mapping.Length == priority.Length && Perm(mapping[..]) && InRange(Contents())
      modifies mapping, priority, owner, firstouts, outcount, firstins, incount, solved, winner, strategy, outedges, inedges
      modifies this`isOrdered
      ensures Moved(old(mapping[..]), old(Contents()), Contents())
      ensures isOrdered <==> Ordered(priority[..])
    {
      hide Perm, InRange, Moved, Ordered, Zip;
      UnsafePermute(mapping);
      UpdateOrder();
    }

    /** Order the vertices by priority; the mapping, with which the order can be undone, tells where each vertex was. */
    method Sort(mapping: array<nat>)
      requires Ok() && Apart(mapping) && mapping.Length == priority.Length && InRange(Contents())
      requires isOrdered ==> Ordered(priority[..])
      modifies mapping, priority, owner, firstouts, outcount, firstins, incount, solved, winner, strategy, outedges, inedges
      modifies this`isOrdered
      ensures isOrdered && Ordered(priority[..]) && Perm(mapping[..])
      ensures exists inv :: Inverses(mapping[..], inv) && Moved(inv, old(Contents()), Contents())
    {
      hide Perm, InRange, Moved, Ordered, Inverses, Zip, SortedBy, Contents, Entries, Priorities, Ok;
      ghost var s := Contents();
      PrioritiesAre();
      Initialize(mapping);
      IdentityMoved(mapping[..], s);
      if isOrdered {
        assert Contents() == s;
        return;
      }
      SortMapping(mapping);
      ghost var m := mapping[..];
      var inverse := Invert(mapping);
      ghost var inv := inverse[..];
      InversesPerm(m, inv);
      UnsafePermute(inverse);
      SortedMoved(m, inv, s, Contents());
      PrioritiesAre();
      isOrdered := true;
    }

    lemma PrioritiesAre()
      requires Ok()
      ensures priority[..] == Priorities(Contents()) && |Contents().entries| == priority.Length
    {
    }

    method Initialize(mapping: array<nat>)
      requires Ok() && Apart(mapping) && mapping.Length == priority.Length
      modifies mapping
      ensures forall k :: 0 <= k < mapping.Length ==> mapping[k] == k
    {
      for i := 0 to mapping.Length
        invariant forall k :: 0 <= k < i ==> mapping[k] == k
      {
        mapping[i] := i;
      }
    }

    /** Sort the mapping by priority. Any sorting procedure will do. */
    method SortMapping(mapping: array<nat>)
      requires Ok() && Apart(mapping) && mapping.Length == priority.Length && Perm(mapping[..])
      modifies mapping
      ensures Perm(mapping[..]) && SortedBy(priority[..], mapping[..], mapping.Length)
    {
      hide Ok;
      for i := 0 to mapping.Length
        invariant Perm(mapping[..]) && SortedBy(priority[..], mapping[..], i)
      {
        var least := i;
        for j := i + 1 to mapping.Length
          invariant i <= least < mapping.Length
          invariant forall k :: i <= k < j ==> priority[mapping[least]] <= priority[mapping[k]]
        {
          if priority[mapping[j]] < priority[mapping[least]] { least := j; }
        }
        SortedNext(priority[..], mapping[..], i, least);
        Swap(mapping, i, least);
      }
    }

    method Invert(mapping: array<nat>) returns (inverse: array<nat>)
      requires Ok() && mapping.Length == priority.Length && Perm(mapping[..])
      ensures fresh(inverse) && Inverses(mapping[..], inverse[..])
    {
      hide Ok;
      inverse := new nat[mapping.Length];
      for i := 0 to mapping.Length
        invariant forall k :: 0 <= k < i ==> inverse[mapping[k]] == k
      {
        inverse[mapping[i]] := i;
      }
      forall j | 0 <= j < mapping.Length ensures inverse[j] < mapping.Length && mapping[inverse[j]] == j {
        Hit(mapping[..], j);
        var i :| 0 <= i < mapping.Length && mapping[..][i] == j;
        assert inverse[mapping[i]] == i;
      }
    }
  }

  /** The first `i` positions hold the vertices of the lowest priorities in order. */
  ghost predicate SortedBy(p: seq<nat>, m: seq<nat>, i: nat)
    requires |m| == |p| && Perm(m)
  {
    i <= |m| && forall j, k :: 0 <= j < i && j <= k < |m| ==> p[m[j]] <= p[m[k]]
  }

  lemma SortedNext(p: seq<nat>, m: seq<nat>, i: nat, least: nat)
    requires |m| == |p| && Perm(m) && SortedBy(p, m, i) && i <= least < |m|
    requires forall k :: i <= k < |m| ==> p[m[least]] <= p[m[k]]
    ensures Perm(Swapped(m, i, least)) && SortedBy(p, Swapped(m, i, least), i + 1)
  {
  }

  lemma IdentityMoved(m: seq<nat>, s: Store)
    requires |s.entries| == |m| && InRange(s) && forall k :: 0 <= k < |m| ==> m[k] == k
    ensures Perm(m) && Inverses(m, m) && Moved(m, s, s)
  {
    assert forall e: int :: -1 <= e < |m| ==> Rename(m, e) == e;
  }

  function Priorities(s: Store): (p: seq<nat>)
    ensures |p| == |s.entries| && forall i :: 0 <= i < |p| ==> p[i] == s.entries[i].priority
  {
    seq(|s.entries|, i requires 0 <= i < |s.entries| => s.entries[i].priority)
  }

  lemma SortedMoved(m: seq<nat>, inv: seq<nat>, s: Store, t: Store)
    requires Inverses(m, inv) && |m| == |s.entries| && Perm(m) && SortedBy(Priorities(s), m, |m|) && Moved(inv, s, t)
    ensures Ordered(Priorities(t))
  {
    forall i | 0 <= i < |m| ensures Priorities(t)[i] == Priorities(s)[m[i]] {
      assert t.entries[inv[m[i]]].priority == s.entries[m[i]].priority;
    }
  }

  predicate Ordered(p: seq<nat>) {
    forall i, j :: 0 <= i <= j < |p| ==> p[i] <= p[j]
  }

  lemma NotOrdered(p: seq<nat>, i: nat)
    requires 1 <= i < |p| && p[i - 1] > p[i]
    ensures !Ordered(p)
  {
  }

  lemma {:induction false} StepwiseOrdered(p: seq<nat>)
    requires forall j :: 1 <= j < |p| ==> p[j - 1] <= p[j]
    ensures Ordered(p)
  {
    if |p| > 0 {
      var last := |p| - 1;
      StepwiseOrdered(p[..last]);
      forall i | 0 <= i < last ensures p[i] <= p[last] { assert p[..last][i] <= p[..last][last - 1]; }
    }
  }

  /** The vertices below `i` are where they belong. */
  ghost predicate FixedBelow(m: seq<nat>, i: nat) {
    i <= |m| && forall j :: 0 <= j < i ==> m[j] == j
  }

  lemma FixedStay(m: seq<nat>, i: nat)
    requires FixedBelow(m, i) && i < |m| && m[i] < |m| && m[i] != i
    requires forall j :: 0 <= j < |m| && j != i ==> m[j] != m[i]
    ensures FixedBelow(m[i := m[m[i]]][m[i] := m[i]], i)
  {
    assert m[m[i]] != m[i];
  }

  lemma FixedNone(m: seq<nat>)
    ensures FixedBelow(m, 0)
  {
  }

  lemma FixedNext(m: seq<nat>, i: nat)
    requires FixedBelow(m, i) && i < |m| && m[i] == i
    ensures FixedBelow(m, i + 1)
  {
  }

  lemma FixedAll(m: seq<nat>)
    requires FixedBelow(m, |m|)
    ensures forall i :: 0 <= i < |m| ==> m[i] == i
  {
  }

  /** Sorting and then permuting by the mapping that sorting returned restores the game with its solution. */
  method SortAndRestore(a: GameArrays, mapping: array<nat>)
    requires a.Ok() && a.Apart(mapping) && mapping.Length == a.priority.Length && InRange(a.Contents())
    requires a.isOrdered ==> Ordered(a.priority[..])
    modifies mapping, a.priority, a.owner, a.firstouts, a.outcount, a.firstins, a.incount, a.solved, a.winner, a.strategy
    modifies a.outedges, a.inedges, a`isOrdered
    ensures a.Contents() == old(a.Contents()) && (a.isOrdered <==> Ordered(a.priority[..]))
  {
    hide Perm, InRange, Moved, Ordered, Inverses, Zip, GameArrays.Contents, GameArrays.Entries, GameArrays.Ok;
    ghost var s := a.Contents();
    a.Sort(mapping);
    ghost var t, m := a.Contents(), mapping[..];
    ghost var inv :| Inverses(m, inv) && Moved(inv, s, t);
    InversesPerm(m, inv);
    MovedInRange(inv, s, t);
    a.Permute(mapping);
    MovedBack(inv, m, s, t, a.Contents());
  }
}
