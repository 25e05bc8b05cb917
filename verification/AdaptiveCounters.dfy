/** Succinct progress measures: adaptive counters in a flat encoding.

    A counter is a string of bits for each of its levels. Levels are compared lexicographically, and so are their strings,
    where a string that ends lies above the continuations by 0 and below the continuations by 1. The flat encoding keeps
    all the bits in one array and the level of each bit in another. */
module AdaptiveCounters {

  datatype Measure = Measure(b: seq<bool>, d: seq<int>)
  {
    /** The highest measure is marked at its first bit. */
    predicate IsTop()
      requires |d| > 0
    {
      d[0] == -1
    }

    /** The bits are ordered by level; the level `h` below the last one holds those that are not in use. */
    ghost predicate Proper(h: int) {
      && |b| == |d| > 0
      && (forall i :: 0 <= i < |d| ==> 0 <= d[i] <= h)
      && (forall i, j :: 0 <= i <= j < |d| ==> d[i] <= d[j])
    }

    ghost predicate Valid(l: nat, h: int) {
      |b| == |d| == l && l > 0 && (IsTop() || Proper(h))
    }
  }

  // ---------------------------------------------------------------------------------------------------------
  // The order on counters
  // ---------------------------------------------------------------------------------------------------------

  function CompareStrings(s: seq<bool>, t: seq<bool>): int {
    if s == [] && t == [] then 0
    else if s == [] then if t[0] then -1 else 1
    else if t == [] then if s[0] then 1 else -1
    else if s[0] != t[0] then if s[0] then 1 else -1
    else CompareStrings(s[1..], t[1..])
  }

  function CompareLevels(a: seq<seq<bool>>, c: seq<seq<bool>>): int
    requires |a| == |c|
  {
    if a == [] then 0
    else if CompareStrings(a[0], c[0]) != 0 then CompareStrings(a[0], c[0])
    else CompareLevels(a[1..], c[1..])
  }

  /** The bits of level `k` from position `i` on. */
  function Level(x: Measure, i: nat, k: int): seq<bool>
    requires |x.b| == |x.d|
    decreases |x.d| - i
  {
    if i < |x.d| && x.d[i] == k then [x.b[i]] + Level(x, i + 1, k) else []
  }

  function LevelEnd(x: Measure, i: nat, k: int): (j: nat)
    requires |x.b| == |x.d|
    decreases |x.d| - i
  {
    if i < |x.d| && x.d[i] == k then LevelEnd(x, i + 1, k) else i
  }

  /** The strings of the levels `k` to `p`, from position `i` on. */
  function Levels(x: Measure, i: nat, k: int, p: int): (c: seq<seq<bool>>)
    requires |x.b| == |x.d|
    ensures |c| == if k > p then 0 else p - k + 1
    decreases p - k + 1
  {
    if k > p then [] else [Level(x, i, k)] + Levels(x, LevelEnd(x, i, k), k + 1, p)
  }

  /** The order on measures, as far as the levels up to `p` tell. */
  function Order(x: Measure, y: Measure, p: int): int
    requires |x.b| == |x.d| == |y.b| == |y.d| > 0
  {
    if x.IsTop() && y.IsTop() then 0
    else if x.IsTop() then 1
    else if y.IsTop() then -1
    else CompareLevels(Levels(x, 0, 0, p), Levels(y, 0, 0, p))
  }

  /** `y` is the least measure above `x` in the order up to `p`. */
  ghost predicate LeastAbove(x: Measure, y: Measure, l: nat, h: int, p: int)
    requires x.Valid(l, h)
  {
    && y.Valid(l, h)
    && Order(y, x, p) > 0
    && forall m: Measure :: m.Valid(l, h) && Order(m, x, p) > 0 ==> Order(y, m, h) <= 0
  }

  /** `y` is the least measure that is equal to `x` in the order up to `p`. */
  ghost predicate LeastEqual(x: Measure, y: Measure, l: nat, h: int, p: int)
    requires x.Valid(l, h)
  {
    && y.Valid(l, h)
    && Order(y, x, p) == 0
    && forall m: Measure :: m.Valid(l, h) && Order(m, x, p) >= 0 ==> Order(y, m, h) <= 0
  }

  // ---------------------------------------------------------------------------------------------------------
  // The order on the flat encoding
  // ---------------------------------------------------------------------------------------------------------

  /** Position by position, the encodings are compared by these keys. */
  function Key(d: int, b: bool, p: int): int {
    if d > p then p + 1 else if b then 2 * p + 2 - d else d
  }

  function KeyAt(x: Measure, i: nat, p: int): int
    requires i < |x.b| == |x.d|
  {
    Key(x.d[i], x.b[i], p)
  }

  function CompareFlat(x: Measure, y: Measure, i: nat, p: int): int
    requires |x.b| == |x.d| == |y.b| == |y.d| && i <= |x.d|
    decreases |x.d| - i
  {
    if i == |x.d| then 0
    else if KeyAt(x, i, p) < KeyAt(y, i, p) then -1
    else if KeyAt(x, i, p) > KeyAt(y, i, p) then 1
    else CompareFlat(x, y, i + 1, p)
  }

  ghost predicate From(x: Measure, i: nat, k: int) {
    |x.b| == |x.d| && forall j :: i <= j < |x.d| ==> x.d[j] >= k
  }

  /** Where all bits lie below level `p`, nothing differs any more. */
  lemma {:induction false} FlatBelow(x: Measure, y: Measure, i: nat, p: int)
    requires |x.d| == |y.d| && i <= |x.d| && From(x, i, p + 1) && From(y, i, p + 1)
    ensures CompareFlat(x, y, i, p) == 0
    decreases |x.d| - i
  {
    if i < |x.d| { FlatBelow(x, y, i + 1, p); }
  }

  /** The flat comparison is the order on counters. */
  lemma {:induction false} FlatIsLevels(x: Measure, y: Measure, h: int, i: nat, k: int, p: int)
    requires x.Proper(h) && y.Proper(h) && |x.d| == |y.d| && i <= |x.d|
    requires From(x, i, k) && From(y, i, k) && k <= p + 1
    ensures CompareFlat(x, y, i, p) == CompareLevels(Levels(x, i, k, p), Levels(y, i, k, p))
    decreases p - k + 1 + |x.d| - i
  {
    if k > p {
      FlatBelow(x, y, i, p);
    } else if i == |x.d| || (x.d[i] > k && y.d[i] > k) {
      FlatIsLevels(x, y, h, i, k + 1, p);
      assert Levels(x, i, k, p)[1..] == Levels(x, i, k + 1, p);
      assert Levels(y, i, k, p)[1..] == Levels(y, i, k + 1, p);
    } else if x.d[i] == k && y.d[i] == k && x.b[i] == y.b[i] {
      FlatIsLevels(x, y, h, i + 1, k, p);
      SameBit(x, y, i, k, p);
    } else {
      assert Levels(x, i, k, p)[0] == Level(x, i, k) && Levels(y, i, k, p)[0] == Level(y, i, k);
    }
  }

  lemma SameBit(x: Measure, y: Measure, i: nat, k: int, p: int)
    requires i < |x.b| == |x.d| == |y.b| == |y.d| && x.d[i] == k && y.d[i] == k && x.b[i] == y.b[i] && k <= p
    ensures CompareLevels(Levels(x, i, k, p), Levels(y, i, k, p)) ==
      CompareLevels(Levels(x, i + 1, k, p), Levels(y, i + 1, k, p))
  {
    assert Level(x, i, k)[1..] == Level(x, i + 1, k) && Level(y, i, k)[1..] == Level(y, i + 1, k);
    assert CompareStrings(Level(x, i, k), Level(y, i, k)) == CompareStrings(Level(x, i + 1, k), Level(y, i + 1, k));
    assert Levels(x, i, k, p)[1..] == Levels(x, i + 1, k, p)[1..];
    assert Levels(y, i, k, p)[1..] == Levels(y, i + 1, k, p)[1..];
  }

  lemma OrderIsFlat(x: Measure, y: Measure, h: int, p: int)
    requires x.Proper(h) && y.Proper(h) && |x.d| == |y.d| && p >= -1
    ensures Order(x, y, p) == CompareFlat(x, y, 0, p)
  {
    FlatIsLevels(x, y, h, 0, 0, p);
  }

  /** The first position at which the keys differ decides. */
  lemma {:induction false} FirstDifference(x: Measure, y: Measure, i: nat, p: int) returns (j: nat)
    requires |x.b| == |x.d| == |y.b| == |y.d| && i <= |x.d|
    ensures i <= j <= |x.d|
    ensures forall k :: i <= k < j ==> KeyAt(x, k, p) == KeyAt(y, k, p)
    ensures if j == |x.d| then CompareFlat(x, y, i, p) == 0
      else KeyAt(x, j, p) != KeyAt(y, j, p) && CompareFlat(x, y, i, p) == if KeyAt(x, j, p) < KeyAt(y, j, p) then -1 else 1
    decreases |x.d| - i
  {
    if i == |x.d| || KeyAt(x, i, p) != KeyAt(y, i, p) {
      j := i;
    } else {
      j := FirstDifference(x, y, i + 1, p);
    }
  }

  lemma {:induction false} DecidedAt(x: Measure, y: Measure, i: nat, j: nat, p: int)
    requires |x.b| == |x.d| == |y.b| == |y.d| && i <= j < |x.d|
    requires forall k :: i <= k < j ==> KeyAt(x, k, p) == KeyAt(y, k, p)
    requires KeyAt(x, j, p) != KeyAt(y, j, p)
    ensures CompareFlat(x, y, i, p) == if KeyAt(x, j, p) < KeyAt(y, j, p) then -1 else 1
    decreases j - i
  {
    if i < j { DecidedAt(x, y, i + 1, j, p); }
  }

  lemma KeyFacts(d: int, b: bool, d': int, b': bool, p: int, h: int)
    requires -1 <= p <= h && 0 <= d <= h && 0 <= d' <= h
    ensures Key(d, b, p) > Key(d', b', p) ==> Key(d, b, h) > Key(d', b', h)
    ensures Key(d, b, p) == Key(d', b', p) && d <= p ==> d == d' && b == b'
    ensures Key(d, b, h) == Key(d', b', h) ==> d == d' && b == b'
    ensures d >= d' ==> Key(d, b, h) >= Key(d', false, h) && Key(d, b, p) <= Key(d', true, p)
  {
  }

  // ---------------------------------------------------------------------------------------------------------
  // Least measures
  // ---------------------------------------------------------------------------------------------------------

  /** Up to a position before which all of `x` lies in the levels up to `p`, equal keys mean equal bits. */
  lemma SameBefore(x: Measure, m: Measure, h: int, p: int, j: nat)
    requires x.Proper(h) && m.Proper(h) && |x.d| == |m.d| && -1 <= p <= h && j <= |x.d|
    requires forall k :: 0 <= k < j ==> x.d[k] <= p && KeyAt(m, k, p) == KeyAt(x, k, p)
    ensures forall k :: 0 <= k < j ==> m.d[k] == x.d[k] && m.b[k] == x.b[k]
  {
    forall k | 0 <= k < j ensures m.d[k] == x.d[k] && m.b[k] == x.b[k] {
      KeyFacts(x.d[k], x.b[k], m.d[k], m.b[k], p, h);
    }
  }

  /** `y` differs from `x` at position `i` first, where it has the next bit, and ends in zeros of that level. */
  ghost predicate Bumped(x: Measure, y: Measure, h: int, p: int, i: nat)
    requires x.Proper(h) && y.Proper(h) && |x.d| == |y.d|
  {
    && i < |x.d|
    && (forall k :: 0 <= k < i ==> x.d[k] <= p && y.d[k] == x.d[k] && y.b[k] == x.b[k])
    && (forall k :: i < k < |y.d| ==> y.d[k] == y.d[i] && !y.b[k])
    && KeyAt(y, i, p) > KeyAt(x, i, p)
  }

  /** No bit between those of `x` and `y` fits at position `i`. */
  ghost predicate NextBit(x: Measure, y: Measure, h: int, p: int, i: nat)
    requires x.Proper(h) && y.Proper(h) && |x.d| == |y.d| && i < |x.d|
  {
    forall d, b :: (i > 0 ==> x.d[i - 1] <= d) && 0 <= d <= h && Key(d, b, p) > KeyAt(x, i, p) ==> Key(d, b, h) >= KeyAt(y, i, h)
  }

  /** After position `i` nothing can be increased. */
  ghost predicate Exhausted(x: Measure, h: int, p: int, i: nat)
    requires x.Proper(h) && i < |x.d|
  {
    || (forall k :: i <= k < |x.d| ==> x.d[k] > p)
    || (forall k :: i < k < |x.d| ==> x.d[k] == x.d[i] <= p && x.b[k])
  }

  lemma NoLater(x: Measure, m: Measure, h: int, p: int, i: nat, j: nat)
    requires x.Proper(h) && m.Proper(h) && |x.d| == |m.d| && -1 <= p <= h && i < |x.d| && j < |x.d|
    requires Exhausted(x, h, p, i) && forall k :: 0 <= k < i ==> x.d[k] <= p
    requires forall k :: 0 <= k < j ==> KeyAt(m, k, p) == KeyAt(x, k, p)
    requires KeyAt(m, j, p) > KeyAt(x, j, p)
    ensures j <= i
  {
    if i < j {
      if x.d[i] > p {
        BothBelow(x, m, h, p, i, j);
      } else {
        OneIsHighest(x, m, h, p, j);
      }
    }
  }

  /** After the same bits, nothing that fits lies above a one of the same level as the bit before. */
  lemma OneIsHighest(x: Measure, m: Measure, h: int, p: int, j: nat)
    requires x.Proper(h) && m.Proper(h) && |x.d| == |m.d| && -1 <= p <= h && 0 < j < |x.d|
    requires forall k :: 0 <= k < j ==> x.d[k] <= p && KeyAt(m, k, p) == KeyAt(x, k, p)
    requires x.d[j] == x.d[j - 1] && x.b[j]
    ensures KeyAt(m, j, p) <= KeyAt(x, j, p)
  {
    SameBefore(x, m, h, p, j);
    assert m.d[j - 1] <= m.d[j];
    KeyFacts(m.d[j], m.b[j], x.d[j], x.b[j], p, h);
  }

  lemma BothBelow(x: Measure, m: Measure, h: int, p: int, i: nat, j: nat)
    requires x.Proper(h) && m.Proper(h) && |x.d| == |m.d| && -1 <= p <= h && i < j < |x.d|
    requires x.d[i] > p && KeyAt(m, i, p) == KeyAt(x, i, p)
    ensures x.d[j] > p && m.d[j] > p
  {
  }

  /** A measure that ends in zeros after position `i` is the least with what comes before. */
  lemma ZerosBelow(x: Measure, y: Measure, m: Measure, h: int, p: int, i: nat)
    requires x.Proper(h) && y.Proper(h) && m.Proper(h) && |x.d| == |y.d| == |m.d| && -1 <= p <= h && Bumped(x, y, h, p, i)
    requires forall k :: 0 <= k < i ==> m.d[k] == y.d[k] && m.b[k] == y.b[k]
    requires KeyAt(m, i, h) >= KeyAt(y, i, h)
    ensures CompareFlat(y, m, 0, h) <= 0
  {
    hide CompareFlat;
    var k := FirstDifference(y, m, 0, h);
    if k < |x.d| {
      KeyFacts(m.d[k], m.b[k], y.d[k], y.b[k], h, h);
      if k > i {
        KeyFacts(m.d[i], m.b[i], y.d[i], y.b[i], h, h);
        assert m.d[k] >= m.d[i];
      }
    }
  }

  lemma BumpedBelow(x: Measure, y: Measure, m: Measure, l: nat, h: int, p: int, i: nat)
    requires x.Proper(h) && y.Proper(h) && m.Proper(h) && |x.d| == |y.d| == |m.d| == l && -1 <= p <= h
    requires Bumped(x, y, h, p, i) && NextBit(x, y, h, p, i) && Exhausted(x, h, p, i)
    requires CompareFlat(x, m, 0, p) < 0
    ensures CompareFlat(y, m, 0, h) <= 0
  {
    hide CompareFlat, Exhausted;
    var j := FirstDifference(x, m, 0, p);
    NoLater(x, m, h, p, i, j);
    SameBefore(x, m, h, p, j);
    KeyFacts(m.d[j], m.b[j], x.d[j], x.b[j], p, h);
    if j < i {
      DecidedAt(y, m, 0, j, h);
    } else {
      assert i > 0 ==> m.d[i - 1] <= m.d[i];
      assert KeyAt(m, i, h) >= KeyAt(y, i, h);
      ZerosBelow(x, y, m, h, p, i);
    }
  }

  /** The next bit at the last position that can be increased, followed by zeros, is the least measure above. */
  lemma BumpedIsLeast(x: Measure, y: Measure, l: nat, h: int, p: int, i: nat)
    requires x.Proper(h) && y.Proper(h) && |x.d| == |y.d| == l && -1 <= p <= h
    requires Bumped(x, y, h, p, i) && NextBit(x, y, h, p, i) && Exhausted(x, h, p, i)
    ensures LeastAbove(x, y, l, h, p)
  {
    OrderIsFlat(y, x, h, p);
    DecidedAt(y, x, 0, i, p);
    hide Order;
    forall m: Measure | m.Valid(l, h) && Order(m, x, p) > 0 ensures Order(y, m, h) <= 0 {
      if m.IsTop() {
        BelowTop(y, m, h);
      } else {
        OrderIsFlat(m, x, h, p);
        OrderIsFlat(y, m, h, h);
        Opposite(m, x, 0, p);
        BumpedBelow(x, y, m, l, h, p, i);
      }
    }
  }

  lemma BelowTop(y: Measure, m: Measure, p: int)
    requires |y.b| == |y.d| == |m.b| == |m.d| > 0 && m.IsTop()
    ensures Order(y, m, p) <= 0
  {
  }

  lemma {:induction false} Opposite(x: Measure, y: Measure, i: nat, p: int)
    requires |x.b| == |x.d| == |y.b| == |y.d| && i <= |x.d|
    ensures CompareFlat(x, y, i, p) == -CompareFlat(y, x, i, p)
    decreases |x.d| - i
  {
    if i < |x.d| { Opposite(x, y, i + 1, p); }
  }

  /** Only ones in the first level: nothing but the top is above. */
  lemma OnesAreHighest(x: Measure, y: Measure, l: nat, h: int, p: int)
    requires x.Proper(h) && |x.d| == l && 0 <= p <= h && |y.b| == |y.d| == l && y.IsTop()
    requires forall k :: 0 <= k < l ==> x.d[k] == 0 && x.b[k]
    ensures LeastAbove(x, y, l, h, p)
  {
    forall m: Measure | m.Valid(l, h) && Order(m, x, p) > 0 ensures Order(y, m, h) <= 0 {
      if !m.IsTop() {
        OrderIsFlat(m, x, h, p);
        var j := FirstDifference(m, x, 0, p);
        KeyFacts(m.d[j], m.b[j], 0, true, p, h);
        assert false;
      }
    }
  }

  /** The bits in the levels up to `p` stay, the others become zeros of the next level. */
  lemma BuriedIsLeast(x: Measure, y: Measure, l: nat, h: int, p: int)
    requires x.Proper(h) && |x.d| == |y.b| == |y.d| == l && -1 <= p < h
    requires forall k :: 0 <= k < l ==>
      if x.d[k] <= p then y.d[k] == x.d[k] && y.b[k] == x.b[k] else y.d[k] == p + 1 && !y.b[k]
    ensures LeastEqual(x, y, l, h, p)
  {
    assert y.Proper(h);
    OrderIsFlat(y, x, h, p);
    var j := FirstDifference(y, x, 0, p);
    forall m: Measure | m.Valid(l, h) && Order(m, x, p) >= 0 ensures Order(y, m, h) <= 0 {
      if m.IsTop() {
        BelowTop(y, m, h);
      } else {
        OrderIsFlat(m, x, h, p);
        OrderIsFlat(y, m, h, h);
        BuriedBelow(x, y, m, l, h, p);
      }
    }
  }

  lemma BuriedBelow(x: Measure, y: Measure, m: Measure, l: nat, h: int, p: int)
    requires x.Proper(h) && y.Proper(h) && m.Proper(h) && |x.d| == |y.d| == |m.d| == l && -1 <= p < h
    requires forall k :: 0 <= k < l ==>
      if x.d[k] <= p then y.d[k] == x.d[k] && y.b[k] == x.b[k] else y.d[k] == p + 1 && !y.b[k]
    requires CompareFlat(m, x, 0, p) >= 0
    ensures CompareFlat(y, m, 0, h) <= 0
  {
    var k := FirstDifference(y, m, 0, h);
    if k < l {
      forall j | 0 <= j < k ensures m.d[j] == y.d[j] && m.b[j] == y.b[j] {
        assert KeyAt(y, j, h) == KeyAt(m, j, h);
        KeyFacts(m.d[j], m.b[j], y.d[j], y.b[j], h, h);
      }
      forall j | 0 <= j < k ensures KeyAt(m, j, p) == KeyAt(x, j, p) { }
      if KeyAt(m, k, p) != KeyAt(x, k, p) { DecidedAt(m, x, 0, k, p); }
      KeyFacts(m.d[k], m.b[k], y.d[k], y.b[k], p, h);
    }
  }

  // ---------------------------------------------------------------------------------------------------------
  // What least measures are good for
  // ---------------------------------------------------------------------------------------------------------

  /** The order is total: measures that are equal in all levels are the same, up to the bits of the top. */
  lemma OrderTotal(x: Measure, y: Measure, l: nat, h: int)
    requires x.Valid(l, h) && y.Valid(l, h) && h >= 0
    ensures Order(x, y, h) == -Order(y, x, h)
    ensures Order(x, y, h) == 0 <==> x == y || (x.IsTop() && y.IsTop())
  {
    if !x.IsTop() && !y.IsTop() {
      OrderIsFlat(x, y, h, h);
      OrderIsFlat(y, x, h, h);
      Opposite(x, y, 0, h);
      var j := FirstDifference(x, y, 0, h);
      if j == l {
        forall k | 0 <= k < l ensures x.d[k] == y.d[k] && x.b[k] == y.b[k] {
          assert KeyAt(x, k, h) == KeyAt(y, k, h);
          KeyFacts(x.d[k], x.b[k], y.d[k], y.b[k], h, h);
        }
        assert x.d == y.d && x.b == y.b;
      }
    }
  }

  lemma FlatTransitive(x: Measure, y: Measure, z: Measure, p: int)
    requires |x.b| == |x.d| == |y.b| == |y.d| == |z.b| == |z.d|
    requires CompareFlat(x, y, 0, p) <= 0 && CompareFlat(y, z, 0, p) <= 0
    ensures CompareFlat(x, z, 0, p) <= 0
    ensures CompareFlat(x, y, 0, p) < 0 || CompareFlat(y, z, 0, p) < 0 ==> CompareFlat(x, z, 0, p) < 0
  {
    var i := FirstDifference(x, y, 0, p);
    var j := FirstDifference(y, z, 0, p);
    var k := FirstDifference(x, z, 0, p);
    var n := if i < j then i else j;
    forall m | 0 <= m < n ensures KeyAt(x, m, p) == KeyAt(z, m, p) {
      assert KeyAt(x, m, p) == KeyAt(y, m, p) == KeyAt(z, m, p);
    }
    if n < |x.d| {
      assert i > n ==> KeyAt(x, n, p) == KeyAt(y, n, p);
      assert j > n ==> KeyAt(y, n, p) == KeyAt(z, n, p);
      DecidedAt(x, z, 0, n, p);
    }
  }

  lemma OrderTransitive(x: Measure, y: Measure, z: Measure, l: nat, h: int, p: int)
    requires x.Valid(l, h) && y.Valid(l, h) && z.Valid(l, h) && p >= -1
    requires Order(x, y, p) <= 0 && Order(y, z, p) <= 0
    ensures Order(x, z, p) <= 0
    ensures Order(x, y, p) < 0 || Order(y, z, p) < 0 ==> Order(x, z, p) < 0
  {
    if !x.IsTop() && !y.IsTop() && !z.IsTop() {
      OrderIsFlat(x, y, h, p);
      OrderIsFlat(y, z, h, p);
      OrderIsFlat(x, z, h, p);
      FlatTransitive(x, y, z, p);
    }
  }

  lemma OrderOpposite(x: Measure, y: Measure, l: nat, h: int, p: int)
    requires x.Valid(l, h) && y.Valid(l, h) && p >= -1
    ensures Order(x, y, p) == -Order(y, x, p)
  {
    if !x.IsTop() && !y.IsTop() {
      OrderIsFlat(x, y, h, p);
      OrderIsFlat(y, x, h, p);
      Opposite(x, y, 0, p);
    }
  }

  /** The least measure above is the top exactly if no counter is above. */
  lemma TopIffNoneAbove(x: Measure, y: Measure, l: nat, h: int, p: int)
    requires x.Valid(l, h) && LeastAbove(x, y, l, h, p) && h >= 0
    ensures y.IsTop() <==> forall m: Measure :: m.Valid(l, h) && !m.IsTop() ==> Order(m, x, p) <= 0
  {
  }

  /** Raising the measure of a successor never lowers the measure it is progressed to. */
  lemma LeastAboveMonotone(x: Measure, y: Measure, x': Measure, y': Measure, l: nat, h: int, p: int)
    requires x.Valid(l, h) && x'.Valid(l, h) && -1 <= p <= h && h >= 0
    requires LeastAbove(x, y, l, h, p) && LeastAbove(x', y', l, h, p) && Order(x, x', p) <= 0
    ensures Order(y, y', h) <= 0
  {
    OrderOpposite(x', y', l, h, p);
    OrderOpposite(x, y', l, h, p);
    OrderTransitive(x, x', y', l, h, p);
  }

  /** There is only one least measure above. */
  lemma LeastAboveUnique(x: Measure, y: Measure, y': Measure, l: nat, h: int, p: int)
    requires x.Valid(l, h) && LeastAbove(x, y, l, h, p) && LeastAbove(x, y', l, h, p) && h >= 0
    ensures y == y' || (y.IsTop() && y'.IsTop())
  {
    OrderTotal(y, y', l, h);
  }

  // ---------------------------------------------------------------------------------------------------------
  // The operations of the solver, on the bits and levels of `tmp` in place
  // ---------------------------------------------------------------------------------------------------------

  ghost function Value(b: array<bool>, d: array<int>): Measure
    reads b, d
  {
    Measure(b[..], d[..])
  }

  /** Compare tmp and best. */
  method Compare(tmpB: array<bool>, tmpD: array<int>, bestB: array<bool>, bestD: array<int>, pindex: int, ghost h: int) returns (res: int)
    requires Value(tmpB, tmpD).Valid(tmpD.Length, h) && Value(bestB, bestD).Valid(tmpD.Length, h) && pindex >= -1
    ensures res == Order(Value(tmpB, tmpD), Value(bestB, bestD), pindex)
  {
    ghost var x, y := Value(tmpB, tmpD), Value(bestB, bestD);
    if tmpD[0] == -1 && bestD[0] == -1 { return 0; }
    if tmpD[0] == -1 { return 1; }
    if bestD[0] == -1 { return -1; }
    OrderIsFlat(x, y, h, pindex);
    var i := 0;
    while i < tmpD.Length
      invariant 0 <= i <= tmpD.Length
      invariant CompareFlat(x, y, 0, pindex) == CompareFlat(x, y, i, pindex)
    {
      if tmpD[i] > pindex && bestD[i] > pindex {
        FlatBelow(x, y, i, pindex);
        return 0;
      } else if tmpD[i] < bestD[i] {
        if !tmpB[i] { return -1; } else { return 1; }
      } else if tmpD[i] > bestD[i] {
        if !bestB[i] { return 1; } else { return -1; }
      } else if !tmpB[i] && bestB[i] {
        return -1;
      } else if tmpB[i] && !bestB[i] {
        return 1;
      }
      i := i + 1;
    }
    res := 0;
  }

  /** Set tmp := min { m | m ==_p tmp }. */
  method TruncTmp(tmpB: array<bool>, tmpD: array<int>, pindex: int, ghost h: int)
    requires Value(tmpB, tmpD).Valid(tmpD.Length, h) && -1 <= pindex < h
    modifies tmpB, tmpD
    ensures LeastEqual(old(Value(tmpB, tmpD)), Value(tmpB, tmpD), tmpD.Length, h, pindex)
  {
    ghost var x, l := Value(tmpB, tmpD), tmpD.Length;
    if tmpD[0] == -1 {
      TopAlone(x, l, h, pindex);
      return;
    }
    var i := tmpD.Length - 1;
    while i >= 0 && tmpD[i] > pindex
      invariant -1 <= i < tmpD.Length
      invariant forall k :: 0 <= k <= i ==> tmpD[k] == x.d[k] && tmpB[k] == x.b[k]
      invariant forall k :: i < k < l ==> x.d[k] > pindex && tmpD[k] == pindex + 1 && !tmpB[k]
    {
      tmpB[i] := false;
      tmpD[i] := pindex + 1;
      i := i - 1;
    }
    BuriedIsLeast(x, Value(tmpB, tmpD), l, h, pindex);
  }

  lemma TopAlone(x: Measure, l: nat, h: int, p: int)
    requires x.Valid(l, h) && x.IsTop()
    ensures LeastEqual(x, x, l, h, p)
  {
  }

  /** Set tmp := min { m | m >_p tmp }, or leave the top as it is. */
  method ProgTmp(tmpB: array<bool>, tmpD: array<int>, pindex: int, h: int)
    requires Value(tmpB, tmpD).Valid(tmpD.Length, h) && 0 <= pindex <= h
    modifies tmpB, tmpD
    ensures old(Value(tmpB, tmpD)).IsTop() ==> Value(tmpB, tmpD) == old(Value(tmpB, tmpD))
    ensures !old(Value(tmpB, tmpD)).IsTop() ==>
      LeastAbove(old(Value(tmpB, tmpD)), Value(tmpB, tmpD), tmpD.Length, h, pindex)
  {
    if tmpD[0] == -1 { return; }
    if tmpD[tmpD.Length - 1] > pindex {
      Append(tmpB, tmpD, pindex, h);
    } else {
      Increase(tmpB, tmpD, pindex, h);
    }
  }

  /** `y` has the bit `b` of level `d` at position `i` and zeros of that level from there on. */
  ghost predicate SetFrom(x: Measure, y: Measure, i: nat, d: int, b: bool)
    requires |x.b| == |x.d| == |y.b| == |y.d| && i < |x.d|
  {
    && (forall k :: 0 <= k < i ==> y.d[k] == x.d[k] && y.b[k] == x.b[k])
    && y.d[i] == d && y.b[i] == b
    && (forall k :: i < k < |x.d| ==> y.d[k] == d && !y.b[k])
  }

  /** After position `i` there are only ones, of the same level. */
  ghost predicate OnesAfter(x: Measure, i: nat)
    requires i < |x.b| == |x.d|
  {
    forall k :: i < k < |x.d| ==> x.d[k] == x.d[i] && x.b[k]
  }

  /** ..011* => ..100* on the bottom, and ..011*, => ..,000* above it. */
  lemma ZeroIncreased(x: Measure, y: Measure, l: nat, h: int, p: int, i: nat)
    requires x.Proper(h) && |x.d| == |y.b| == |y.d| == l && 0 <= p <= h && i < l && x.d[l - 1] <= p
    requires OnesAfter(x, i) && !x.b[i]
    requires if x.d[i] == h then SetFrom(x, y, i, h, true) else SetFrom(x, y, i, x.d[i] + 1, false)
    ensures LeastAbove(x, y, l, h, p)
  {
    BumpedIsLeast(x, y, l, h, p, i);
  }

  /** .,111* => .100* */
  lemma OnesIncreased(x: Measure, y: Measure, l: nat, h: int, p: int, i: nat)
    requires x.Proper(h) && |x.d| == |y.b| == |y.d| == l && 0 <= p <= h && i < l && x.d[l - 1] <= p
    requires OnesAfter(x, i) && x.b[i] && x.d[i] > 0 && (i > 0 ==> x.d[i - 1] != x.d[i])
    requires SetFrom(x, y, i, x.d[i] - 1, true)
    ensures LeastAbove(x, y, l, h, p)
  {
    BumpedIsLeast(x, y, l, h, p, i);
  }

  /** ..e => ..10* on level `p`, if there are bits below it. */
  lemma Appended(x: Measure, y: Measure, l: nat, h: int, p: int, i: nat)
    requires x.Proper(h) && |x.d| == |y.b| == |y.d| == l && 0 <= p <= h && i < l
    requires x.d[i] > p && (i > 0 ==> x.d[i - 1] <= p) && SetFrom(x, y, i, p, true)
    ensures LeastAbove(x, y, l, h, p)
  {
    BumpedIsLeast(x, y, l, h, p, i);
  }

  /** Set bit `i`, and move all bits from `i` on to level `newD`. */
  method Settle(tmpB: array<bool>, tmpD: array<int>, i: nat, newD: int, bit: bool, ghost x: Measure)
    requires |x.b| == |x.d| == tmpB.Length == tmpD.Length && i < |x.d|
    requires forall k :: 0 <= k < i ==> tmpD[k] == x.d[k] && tmpB[k] == x.b[k]
    requires forall k :: i < k < |x.d| ==> !tmpB[k]
    modifies tmpB, tmpD
    ensures SetFrom(x, Value(tmpB, tmpD), i, newD, bit)
  {
    tmpB[i] := bit;
    var k := i;
    while k < tmpD.Length
      invariant i <= k <= tmpD.Length && tmpB[..] == old(tmpB[..])[i := bit]
      invariant forall j :: 0 <= j < tmpD.Length ==> tmpD[j] == if i <= j < k then newD else old(tmpD[j])
    {
      tmpD[k] := newD;
      k := k + 1;
    }
  }

  /** Some bits below level `pindex`: that level goes from ..e to ..10*. */
  method Append(tmpB: array<bool>, tmpD: array<int>, pindex: int, ghost h: int)
    requires Value(tmpB, tmpD).Proper(h) && 0 <= pindex <= h && tmpD[tmpD.Length - 1] > pindex
    modifies tmpB, tmpD
    ensures LeastAbove(old(Value(tmpB, tmpD)), Value(tmpB, tmpD), tmpD.Length, h, pindex)
  {
    hide LeastAbove;
    ghost var x, l := Value(tmpB, tmpD), tmpD.Length;
    var i := tmpD.Length - 1;
    while i >= 0 && tmpD[i] > pindex
      invariant -1 <= i < tmpD.Length && (i == l - 1 ==> tmpD[i] > pindex)
      invariant forall k :: 0 <= k <= i ==> tmpD[k] == x.d[k] && tmpB[k] == x.b[k]
      invariant forall k :: i < k < l ==> x.d[k] > pindex && tmpD[k] == pindex && !tmpB[k]
    {
      tmpB[i] := false;
      tmpD[i] := pindex;
      i := i - 1;
    }
    tmpB[i + 1] := true;
    Appended(x, Value(tmpB, tmpD), l, h, pindex, i + 1);
  }

  /** No bits below level `pindex`: find the smallest increase. */
  method Increase(tmpB: array<bool>, tmpD: array<int>, pindex: int, h: int)
    requires Value(tmpB, tmpD).Proper(h) && 0 <= pindex <= h && tmpD[tmpD.Length - 1] <= pindex
    modifies tmpB, tmpD
    ensures LeastAbove(old(Value(tmpB, tmpD)), Value(tmpB, tmpD), tmpD.Length, h, pindex)
  {
    hide LeastAbove;
    ghost var x, l := Value(tmpB, tmpD), tmpD.Length;
    var i := tmpD.Length - 1;
    while true
      invariant 0 <= i < l && tmpD[..] == x.d && x.d[i] == x.d[l - 1]
      invariant forall k :: 0 <= k <= i ==> tmpB[k] == x.b[k]
      invariant forall k :: i < k < l ==> x.d[k] == x.d[l - 1] && x.b[k] && !tmpB[k]
      decreases i
    {
      if !tmpB[i] {
        if tmpD[i] == h {
          // ..011* => ..100*
          tmpB[i] := true;
        } else {
          // ..011*, => ..,000*
          Settle(tmpB, tmpD, i, tmpD[i] + 1, false, x);
        }
        ZeroIncreased(x, Value(tmpB, tmpD), l, h, pindex, i);
        return;
      } else if i == 0 {
        if tmpD[0] == 0 {
          // 1111111 => Top
          tmpB[0] := false;
          tmpD[0] := -1;
          OnesAreHighest(x, Value(tmpB, tmpD), l, h, pindex);
        } else {
          // ,1111111 => 100*
          Settle(tmpB, tmpD, 0, tmpD[0] - 1, true, x);
          OnesIncreased(x, Value(tmpB, tmpD), l, h, pindex, 0);
        }
        return;
      } else if tmpD[i - 1] != tmpD[i] {
        // .,111* => .100*
        Settle(tmpB, tmpD, i, tmpD[i] - 1, true, x);
        OnesIncreased(x, Value(tmpB, tmpD), l, h, pindex, i);
        return;
      }
      tmpB[i] := false;
      i := i - 1;
    }
  }
}
