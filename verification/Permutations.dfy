/** Permutations of positions, and reordering in place by following their cycles. */
module Permutations {
  import opened ParityGames

  ghost predicate Perm(m: seq<nat>) {
    && (forall i :: 0 <= i < |m| ==> m[i] < |m|)
    && (forall i, j :: 0 <= i < j < |m| ==> m[i] != m[j])
  }

  /** The other way round. */
  ghost predicate Inverses(m: seq<nat>, inv: seq<nat>) {
    && |m| == |inv|
    && (forall i :: 0 <= i < |m| ==> m[i] < |m| && inv[m[i]] == i)
    && (forall j :: 0 <= j < |m| ==> inv[j] < |m| && m[inv[j]] == j)
  }

  lemma InversesPerm(m: seq<nat>, inv: seq<nat>)
    requires Inverses(m, inv)
    ensures Perm(m) && Perm(inv) && Inverses(inv, m)
  {
    forall i, j | 0 <= i < j < |m| ensures m[i] != m[j] { assert inv[m[i]] == i && inv[m[j]] == j; }
    forall i, j | 0 <= i < j < |m| ensures inv[i] != inv[j] { assert m[inv[i]] == i && m[inv[j]] == j; }
  }

  /** In a permutation every position is hit. */
  lemma Hit(m: seq<nat>, j: nat)
    requires Perm(m) && j < |m|
    ensures exists i :: 0 <= i < |m| && m[i] == j
  {
    if forall i :: 0 <= i < |m| ==> m[i] != j {
      var top := |m| - 1;
      var r := seq(|m|, k requires 0 <= k < |m| => if m[k] == top then j else m[k]);
      assert forall k :: 0 <= k < |r| ==> r[k] < top;
      var i, k := Repetition(r, top);
      assert false;
    }
  }

  // ---------------------------------------------------------------------------------------------------------
  // Reordering in place
  // ---------------------------------------------------------------------------------------------------------

  function Swapped<T>(a: seq<T>, i: nat, k: nat): (b: seq<T>)
    requires i < |a| && k < |a|
    ensures |b| == |a|
  {
    a[i := a[k]][k := a[i]]
  }

  /** `origin` tells where the current elements come from; what is still to be done, `m`, has moved along with them. */
  ghost predicate Tracks<T(!new)>(m0: seq<nat>, a0: seq<T>, m: seq<nat>, a: seq<T>, origin: seq<nat>) {
    && |m0| == |a0| == |m| == |a| == |origin|
    && Perm(origin)
    && (forall i :: 0 <= i < |m| ==> m[i] == m0[origin[i]] && a[i] == a0[origin[i]])
  }

  lemma TracksStart<T(!new)>(m: seq<nat>, a: seq<T>)
    requires |m| == |a|
    ensures Tracks(m, a, m, a, seq(|m|, i requires 0 <= i < |m| => i))
  {
  }

  /** Move the element at `i` to where it belongs: the cycle through `i` gets shorter. */
  lemma TracksSwap<T(!new)>(m0: seq<nat>, a0: seq<T>, m: seq<nat>, a: seq<T>, origin: seq<nat>, i: nat)
    requires Perm(m0) && Tracks(m0, a0, m, a, origin) && i < |m| && m[i] < |m| && m[i] != i
    ensures Tracks(m0, a0, m[i := m[m[i]]][m[i] := m[i]], Swapped(a, i, m[i]), Swapped(origin, i, m[i]))
    ensures Misplaced(m[i := m[m[i]]][m[i] := m[i]]) < Misplaced(m)
  {
    var k := m[i];
    var m' := m[i := m[k]][k := k];
    assert m[k] != k by { assert m0[origin[i]] == k && origin[i] != origin[k]; }
    assert k in Misplaced(m) && k !in Misplaced(m');
    assert i in Misplaced(m);
  }

  ghost function Misplaced(m: seq<nat>): set<nat> {
    set i: nat | i < |m| && m[i] != i
  }

  lemma TracksInRange<T(!new)>(m0: seq<nat>, a0: seq<T>, m: seq<nat>, a: seq<T>, origin: seq<nat>, i: nat)
    requires Perm(m0) && Tracks(m0, a0, m, a, origin) && i < |m|
    ensures m[i] < |m| == |a| == |origin|
    ensures forall j :: 0 <= j < |m| && j != i ==> m[j] != m[i]
  {
    forall j | 0 <= j < |m| && j != i ensures m[j] != m[i] { assert origin[i] != origin[j]; }
  }

  /** When nothing is left to be done, every element is where it belongs. */
  lemma TracksDone<T(!new)>(m0: seq<nat>, a0: seq<T>, m: seq<nat>, a: seq<T>, origin: seq<nat>, i: nat)
    requires Perm(m0) && Tracks(m0, a0, m, a, origin) && i < |m| && forall j :: 0 <= j < |m| ==> m[j] == j
    ensures m0[i] < |a| && a[m0[i]] == a0[i]
  {
    var j := m0[i];
    assert m[j] == j == m0[origin[j]];
    assert origin[j] == i;
  }
}
