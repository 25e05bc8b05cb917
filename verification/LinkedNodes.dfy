/** The current game of the recursive solver as a circular, sorted, doubly linked list from which vertices are unlinked
    and into which they are relinked in reverse order. */
module LinkedNodes {

  /** Going up from `u` and wrapping around at the end, `x` comes strictly before `w`. */
  predicate Between(u: nat, x: nat, w: nat) {
    if u < w then u < x < w else x > u || x < w
  }

  /** `w` follows `u` in the circular order of `c`. */
  ghost predicate IsNext(c: set<nat>, u: nat, w: nat) {
    u in c && w in c && forall x :: x in c ==> !Between(u, x, w)
  }

  /** The links of `v` are its neighbours in the circular order. */
  ghost predicate Joined(c: set<nat>, next: seq<nat>, prev: seq<nat>, v: nat) {
    v < |next| && v < |prev| && IsNext(c, v, next[v]) && IsNext(c, prev[v], v)
  }

  ghost predicate Linked(c: set<nat>, next: seq<nat>, prev: seq<nat>) {
    && |next| == |prev|
    && (forall v :: v in c ==> v < |next|)
    && (forall v {:trigger Joined(c, next, prev, v)} :: v in c ==> Joined(c, next, prev, v))
  }

  ghost predicate IsFirst(c: set<nat>, first: nat) {
    c != {} ==> first in c && forall v :: v in c ==> first <= v
  }

  lemma NextUnique(c: set<nat>, u: nat, w: nat, w': nat)
    requires IsNext(c, u, w) && IsNext(c, u, w')
    ensures w == w'
  {
    assert w != w' ==> Between(u, w, w') || Between(u, w', w);
  }

  lemma PrevUnique(c: set<nat>, u: nat, u': nat, w: nat)
    requires IsNext(c, u, w) && IsNext(c, u', w)
    ensures u == u'
  {
    assert u != u' ==> Between(u, u', w) || Between(u', u, w);
  }

  lemma LinkedInverse(c: set<nat>, next: seq<nat>, prev: seq<nat>, v: nat)
    requires Linked(c, next, prev) && v in c
    ensures next[v] in c && prev[v] in c && prev[next[v]] == v && next[prev[v]] == v
  {
    assert Joined(c, next, prev, v) && Joined(c, next, prev, next[v]) && Joined(c, next, prev, prev[v]);
    PrevUnique(c, prev[next[v]], v, next[v]);
    NextUnique(c, prev[v], next[prev[v]], v);
  }

  /** Links of a set are determined by the set. */
  lemma LinkedUnique(c: set<nat>, next: seq<nat>, prev: seq<nat>, next': seq<nat>, prev': seq<nat>, v: nat)
    requires Linked(c, next, prev) && Linked(c, next', prev') && v in c
    ensures next[v] == next'[v] && prev[v] == prev'[v]
  {
    assert Joined(c, next, prev, v) && Joined(c, next', prev', v);
    NextUnique(c, v, next[v], next'[v]);
    PrevUnique(c, prev[v], prev'[v], v);
  }

  // ---------------------------------------------------------------------------------------------------------
  // Unlinking
  // ---------------------------------------------------------------------------------------------------------

  function UnlinkNext(next: seq<nat>, prev: seq<nat>, v: nat): seq<nat>
    requires v < |next| && v < |prev| && prev[v] < |next|
  {
    next[prev[v] := next[v]]
  }

  function UnlinkPrev(next: seq<nat>, prev: seq<nat>, v: nat): seq<nat>
    requires v < |next| && v < |prev| && next[v] < |prev|
  {
    prev[next[v] := prev[v]]
  }

  lemma UnlinkPair(c: set<nat>, u: nat, v: nat, w: nat)
    requires IsNext(c, u, v) && IsNext(c, v, w) && u != v
    ensures IsNext(c - {v}, u, w)
  {
    assert Between(v, u, v);
    forall x | x in c - {v} ensures !Between(u, x, w) {
      assert !Between(u, x, v) && !Between(v, x, w) && !Between(v, u, w) && !Between(u, w, v);
    }
  }

  lemma IsNextShrinks(c: set<nat>, v: nat, x: nat, y: nat)
    requires IsNext(c, x, y) && x != v && y != v
    ensures IsNext(c - {v}, x, y)
  {
  }

  /** A vertex that follows itself is alone. */
  lemma OwnNext(c: set<nat>, v: nat)
    requires IsNext(c, v, v)
    ensures c == {v}
  {
    assert forall x :: x in c && x != v ==> Between(v, x, v);
  }

  lemma UnlinkedJoined(c: set<nat>, next: seq<nat>, prev: seq<nat>, v: nat, x: nat)
    requires Linked(c, next, prev) && v in c && x in c && x != v
    requires next[v] in c && prev[v] in c && prev[v] < |next| && next[v] < |prev|
    ensures Joined(c - {v}, UnlinkNext(next, prev, v), UnlinkPrev(next, prev, v), x)
  {
    hide Between, IsNext;
    assert Joined(c, next, prev, v) && Joined(c, next, prev, x);
    LinkedInverse(c, next, prev, x);
    LinkedInverse(c, next, prev, v);
    if x == prev[v] { UnlinkPair(c, x, v, next[v]); } else { IsNextShrinks(c, v, x, next[x]); }
    if x == next[v] {
      if prev[v] == v { OwnNext(c, v); }
      UnlinkPair(c, prev[v], v, x);
    } else { IsNextShrinks(c, v, prev[x], x); }
  }

  lemma Unlinked(c: set<nat>, next: seq<nat>, prev: seq<nat>, v: nat)
    requires Linked(c, next, prev) && v in c
    ensures prev[v] < |next| && next[v] < |prev|
    ensures next[v] in c && prev[v] in c
    ensures Linked(c - {v}, UnlinkNext(next, prev, v), UnlinkPrev(next, prev, v))
    ensures c != {v} ==> next[v] in c - {v}
  {
    LinkedInverse(c, next, prev, v);
    assert Joined(c, next, prev, v);
    if next[v] == v { OwnNext(c, v); }
    hide Between, IsNext, Joined;
    forall x | x in c - {v} ensures Joined(c - {v}, UnlinkNext(next, prev, v), UnlinkPrev(next, prev, v), x) {
      UnlinkedJoined(c, next, prev, v, x);
    }
  }

  lemma UnlinkedFirst(c: set<nat>, next: seq<nat>, prev: seq<nat>, v: nat, first: nat)
    requires Linked(c, next, prev) && v in c && IsFirst(c, first)
    ensures IsFirst(c - {v}, if v == first then next[v] else first)
  {
    assert Joined(c, next, prev, v);
    if v == first && c != {v} {
      if next[v] == v { OwnNext(c, v); }
      forall x | x in c - {v} ensures next[v] <= x { assert !Between(v, x, next[v]); }
    }
  }

  // ---------------------------------------------------------------------------------------------------------
  // The list as a value: unlinking, relinking, and rebuilding from a sorted vector
  // ---------------------------------------------------------------------------------------------------------

  datatype Links = Links(next: seq<nat>, prev: seq<nat>, first: nat)

  /** The list represents the set `c`. */
  ghost predicate Ring(c: set<nat>, l: Links) {
    Linked(c, l.next, l.prev) && IsFirst(c, l.first)
  }

  function Unlink(l: Links, v: nat): Links {
    if v < |l.next| && v < |l.prev| && l.prev[v] < |l.next| && l.next[v] < |l.prev| then
      Links(UnlinkNext(l.next, l.prev, v), UnlinkPrev(l.next, l.prev, v), if v == l.first then l.next[v] else l.first)
    else l
  }

  function UnlinkAll(l: Links, vs: seq<nat>): Links {
    if vs == [] then l else Unlink(UnlinkAll(l, vs[..|vs| - 1]), vs[|vs| - 1])
  }

  function Relink(l: Links, v: nat): Links
    requires v < |l.next| && v < |l.prev| && l.prev[v] < |l.next| && l.next[v] < |l.prev|
  {
    Links(l.next[l.prev[v] := v], l.prev[l.next[v] := v], if l.prev[v] >= v then v else l.first)
  }

  lemma UnlinkRing(c: set<nat>, l: Links, v: nat)
    requires Ring(c, l) && v in c
    ensures v < |l.next| == |l.prev| && l.prev[v] in c && l.next[v] in c && l.prev[v] < |l.next| && l.next[v] < |l.prev|
    ensures Ring(c - {v}, Unlink(l, v))
    ensures forall x :: 0 <= x < |l.next| && x !in c ==> Unlink(l, v).next[x] == l.next[x] && Unlink(l, v).prev[x] == l.prev[x]
  {
    Unlinked(c, l.next, l.prev, v);
    UnlinkedFirst(c, l.next, l.prev, v, l.first);
  }

  /** Putting a vertex back right after taking it out restores every link and the first vertex. */
  lemma RelinkUndoes(c: set<nat>, l: Links, v: nat)
    requires Ring(c, l) && v in c
    ensures v < |Unlink(l, v).next| == |Unlink(l, v).prev| == |l.next|
    ensures Unlink(l, v).prev[v] in c && Unlink(l, v).prev[v] < |l.next|
    ensures Unlink(l, v).next[v] in c && Unlink(l, v).next[v] < |l.next|
    ensures Relink(Unlink(l, v), v) == l
  {
    UnlinkRing(c, l, v);
    LinkedInverse(c, l.next, l.prev, v);
    assert Joined(c, l.next, l.prev, v);
    var m := Unlink(l, v);
    if l.next[v] == v { OwnNext(c, v); }
    assert m.next[v] == l.next[v] && m.prev[v] == l.prev[v];
    assert Relink(m, v).next == l.next && Relink(m, v).prev == l.prev;
    if l.prev[v] >= v {
      forall x | x in c ensures v <= x { assert !Between(l.prev[v], x, v); }
      assert l.first == v;
    } else {
      assert l.first != v;
    }
  }

  /** A vertex that is not the first one comes right after the greatest smaller one. */
  lemma PrevBelow(c: set<nat>, l: Links, v: nat)
    requires Ring(c, l) && v in c
    ensures v < |l.prev| && l.prev[v] in c
    ensures v != l.first ==> l.prev[v] < v && forall x :: x in c && x > l.prev[v] ==> x >= v
    ensures v == l.first ==> forall x :: x in c ==> x <= l.prev[v]
  {
    assert Joined(c, l.next, l.prev, v);
    var u := l.prev[v];
    forall x | x in c ensures v != l.first ==> u < v && (x > u ==> x >= v) {
      assert !Between(u, x, v) && !Between(u, l.first, v);
    }
    forall x | x in c ensures v == l.first ==> x <= u {
      assert !Between(u, x, v);
    }
  }

  lemma NextAbove(c: set<nat>, l: Links, v: nat)
    requires Ring(c, l) && v in c
    ensures v < |l.next| && l.next[v] in c
    ensures l.next[v] != l.first ==> l.next[v] > v && forall x :: x in c && x > v ==> x >= l.next[v]
    ensures l.next[v] == l.first ==> forall x :: x in c ==> x <= v
  {
    assert Joined(c, l.next, l.prev, v);
    var w := l.next[v];
    forall x | x in c ensures if w != l.first then w > v && (x > v ==> x >= w) else x <= v {
      assert !Between(v, x, w) && !Between(v, l.first, w);
    }
  }

  /** Links are determined by the set they represent and by the links of the vertices outside it. */
  lemma RingUnique(c: set<nat>, l: Links, l': Links)
    requires Ring(c, l) && Ring(c, l') && c != {} && |l.next| == |l'.next|
    requires forall v :: 0 <= v < |l.next| && v !in c ==> l.next[v] == l'.next[v] && l.prev[v] == l'.prev[v]
    ensures l == l'
  {
    forall v | 0 <= v < |l.next| ensures l.next[v] == l'.next[v] && l.prev[v] == l'.prev[v] {
      if v in c { LinkedUnique(c, l.next, l.prev, l'.next, l'.prev, v); }
    }
    assert l.next == l'.next && l.prev == l'.prev;
  }

  predicate Increasing(s: seq<nat>) {
    forall j, k :: 0 <= j < k < |s| ==> s[j] < s[k]
  }

  /** The position after `k` in a circular vector. */
  function After(k: nat, n: nat): nat
    requires k < n
  {
    if k + 1 == n then 0 else k + 1
  }

  lemma SortedNext(s: seq<nat>, c: set<nat>, k: nat)
    requires Increasing(s) && k < |s| && forall x :: x in c <==> x in s
    ensures IsNext(c, s[k], s[After(k, |s|)])
  {
    forall x | x in c ensures !Between(s[k], x, s[After(k, |s|)]) {
      var j :| 0 <= j < |s| && s[j] == x;
      assert j <= k || After(k, |s|) == 0 || After(k, |s|) <= j;
    }
  }

  /** A sorted vector of vertices, linked up circularly, represents their set. */
  lemma SortedRing(s: seq<nat>, c: set<nat>, l: Links)
    requires Increasing(s) && |s| > 0 && |l.next| == |l.prev| && l.first == s[0]
    requires forall x :: x in c <==> x in s
    requires forall k :: 0 <= k < |s| ==> s[k] < |l.next|
    requires forall k :: 0 <= k < |s| ==> l.next[s[k]] == s[After(k, |s|)] && l.prev[s[After(k, |s|)]] == s[k]
    ensures Ring(c, l)
  {
    hide IsNext, Increasing;
    forall v | v in c ensures v < |l.next| && Joined(c, l.next, l.prev, v) {
      var k :| 0 <= k < |s| && s[k] == v;
      SortedNext(s, c, k);
      var j := if k == 0 then |s| - 1 else k - 1;
      assert After(j, |s|) == k;
      SortedNext(s, c, j);
    }
    assert IsFirst(c, l.first) by { SortedFirst(s, c); }
  }

  lemma SortedFirst(s: seq<nat>, c: set<nat>)
    requires Increasing(s) && |s| > 0 && forall x :: x in c <==> x in s
    ensures IsFirst(c, s[0])
  {
    forall v | v in c ensures s[0] <= v {
      var k :| 0 <= k < |s| && s[k] == v;
    }
  }
}
