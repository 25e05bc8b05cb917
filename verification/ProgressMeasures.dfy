/** Progress measures for both players in one array of digits (TSPMSolver): the digits with the parity of a player form
    that player's measure, least significant first, and digit `i` runs up to a bound `c[i]`. A -1 in a player's lowest
    digit marks the highest measure, Top. */
module ProgressMeasures {
  import opened ParityGames

  ghost predicate Bounds(c: seq<int>) {
    |c| >= 2 && forall i :: 0 <= i < |c| ==> c[i] >= 0
  }

  /** The digits at `i`, `i + 2`, ... respect their bounds. */
  predicate InRange(c: seq<int>, a: seq<int>, i: nat)
    requires |a| == |c|
    decreases |c| - i
  {
    i >= |c| || (0 <= a[i] <= c[i] && InRange(c, a, i + 2))
  }

  /** How many numbers the digits from `i` on can show. */
  function Range(c: seq<int>, i: nat): (r: nat)
    requires Bounds(c)
    ensures r > 0
    decreases |c| - i
  {
    if i >= |c| then 1 else Times(c[i] + 1, Range(c, i + 2))
  }

  function Times(a: nat, b: nat): (r: nat)
    ensures r == a * b
    ensures a > 0 && b > 0 ==> r > 0
  {
    assert a > 0 && b > 0 ==> a * b > 0;
    a * b
  }

  /** The number shown by the digits from `i` on, in units of digit `i`. */
  function Number(c: seq<int>, a: seq<int>, i: nat): (r: nat)
    requires Bounds(c) && |a| == |c| && InRange(c, a, i)
    decreases |c| - i
  {
    if i >= |c| then 0 else a[i] + Times(c[i] + 1, Number(c, a, i + 2))
  }

  /** The lowest digit of player `pl` that counts for priority `d`. */
  function First(d: nat, pl: Player): (i: nat)
    ensures i >= d && i % 2 == pl && i <= d + 1
  {
    if d % 2 == pl then d else d + 1
  }

  predicate IsTop(a: seq<int>, pl: Player)
    requires |a| >= 2
  {
    a[pl] == -1
  }

  predicate Measure(c: seq<int>, a: seq<int>, pl: Player)
    requires |a| == |c| >= 2
  {
    IsTop(a, pl) || InRange(c, a, pl)
  }

  /** The measure of `pl`, truncated at priority `d`, as a number. */
  function Rank(c: seq<int>, a: seq<int>, pl: Player, d: nat): (r: nat)
    requires Bounds(c) && |a| == |c| && Measure(c, a, pl)
  {
    if IsTop(a, pl) then Range(c, First(d, pl))
    else
      RangeAbove(c, a, pl, First(d, pl));
      Number(c, a, First(d, pl))
  }

  lemma {:induction false} RangeAbove(c: seq<int>, a: seq<int>, i: nat, j: nat)
    requires |a| == |c| && InRange(c, a, i) && i <= j && j % 2 == i % 2
    ensures InRange(c, a, j)
    decreases |c| - i
  {
    if i < j && i < |c| { RangeAbove(c, a, i + 2, j); }
    if j >= |c| { assert InRange(c, a, j); }
  }

  lemma TimesLess(k: nat, a: nat, b: nat, x: nat, y: nat)
    requires a < b && x < k
    ensures x + Times(k, a) < y + Times(k, b)
  {
    assert k * b >= k * (a + 1) == k * a + k;
  }

  lemma {:induction false} NumberBelow(c: seq<int>, a: seq<int>, i: nat)
    requires Bounds(c) && |a| == |c| && InRange(c, a, i)
    ensures Number(c, a, i) < Range(c, i)
    decreases |c| - i
  {
    if i < |c| {
      NumberBelow(c, a, i + 2);
      TimesLess(c[i] + 1, Number(c, a, i + 2), Range(c, i + 2), a[i], 0);
    }
  }

  // ---------------------------------------------------------------------------------------------------------
  // Comparison
  // ---------------------------------------------------------------------------------------------------------

  /** Compare the digits from `i` down to `d`, the most significant first. */
  function LessFrom(c: seq<int>, a: seq<int>, b: seq<int>, i: int, d: nat): bool
    requires |a| == |b| == |c| && i < |c|
    decreases i - d
  {
    if i < d then false
    else if a[i] == b[i] then LessFrom(c, a, b, i - 2, d)
    else if a[i] > c[i] && b[i] > c[i] then false
    else a[i] < b[i]
  }

  /** The highest digit of player `pl`. */
  function Highest(k: nat, pl: Player): int { if k % 2 == pl then k - 2 else k - 1 }

  function Less(c: seq<int>, a: seq<int>, b: seq<int>, d: nat, pl: Player): bool
    requires |a| == |b| == |c| >= 2
  {
    if IsTop(b, pl) then !IsTop(a, pl)
    else if IsTop(a, pl) then false
    else LessFrom(c, a, b, Highest(|c|, pl), d)
  }

  predicate SameFrom(a: seq<int>, b: seq<int>, i: nat)
    requires |a| == |b|
    decreases |a| - i
  {
    i >= |a| || (a[i] == b[i] && SameFrom(a, b, i + 2))
  }

  lemma {:induction false} SameBack(a: seq<int>, b: seq<int>, i: nat)
    requires |a| == |b| && SameFrom(a, b, i)
    ensures SameFrom(b, a, i)
    decreases |a| - i
  {
    if i < |a| { SameBack(a, b, i + 2); }
  }

  lemma {:induction false} SameNumber(c: seq<int>, a: seq<int>, b: seq<int>, i: nat)
    requires Bounds(c) && |a| == |b| == |c| && InRange(c, a, i) && InRange(c, b, i)
    requires SameFrom(a, b, i)
    ensures Number(c, a, i) == Number(c, b, i)
    decreases |c| - i
  {
    if i < |c| { SameNumber(c, a, b, i + 2); }
  }

  /** A digit decides when all more significant ones agree: between there and `f` nothing can change that. */
  lemma {:induction false} Decided(c: seq<int>, a: seq<int>, b: seq<int>, i: nat, f: nat)
    requires Bounds(c) && |a| == |b| == |c| && f <= i < |c| && i % 2 == f % 2
    requires InRange(c, a, f) && InRange(c, b, f)
    requires InRange(c, a, i + 2) && InRange(c, b, i + 2) && SameFrom(a, b, i + 2) && a[i] < b[i]
    ensures Number(c, a, f) < Number(c, b, f)
    decreases i - f
  {
    if f < i {
      Decided(c, a, b, i, f + 2);
      TimesLess(c[f] + 1, Number(c, a, f + 2), Number(c, b, f + 2), a[f], b[f]);
    } else {
      SameNumber(c, a, b, i + 2);
    }
  }

  /** `c` may have shrunk since the digits were written; `c0` are the bounds they respect. One of the two measures respects
      `c` as well. */
  lemma {:induction false} LessFromMeaning(c: seq<int>, c0: seq<int>, a: seq<int>, b: seq<int>, i: int, f: nat, d: nat)
    requires Bounds(c0) && |c| == |a| == |b| == |c0| && d <= f <= d + 1 && f - 2 <= i < |c| && (i - f) % 2 == 0
    requires InRange(c0, a, f) && InRange(c0, b, f)
    requires InRange(c, b, f) || InRange(c, a, f)
    requires InRange(c0, a, i + 2) && InRange(c0, b, i + 2) && SameFrom(a, b, i + 2)
    ensures LessFrom(c, a, b, i, d) <==> Number(c0, a, f) < Number(c0, b, f)
    decreases i - d
  {
    if i < f {
      SameNumber(c0, a, b, f);
    } else {
      RangeAbove(c0, a, f, i);
      RangeAbove(c0, b, f, i);
      if InRange(c, b, f) { RangeAbove(c, b, f, i); } else { RangeAbove(c, a, f, i); }
      if a[i] == b[i] {
        LessFromMeaning(c, c0, a, b, i - 2, f, d);
      } else if a[i] < b[i] {
        Decided(c0, a, b, i, f);
      } else {
        SameBack(a, b, i + 2);
        Decided(c0, b, a, i, f);
      }
    }
  }

  lemma NothingAbove(c: seq<int>, a: seq<int>, b: seq<int>, i: nat)
    requires |a| == |b| == |c| <= i
    ensures InRange(c, a, i) && InRange(c, b, i) && SameFrom(a, b, i)
  {
  }

  /** pm_less decides the order of the truncated measures; a measure may exceed bounds that have shrunk, as long as the
      other one does not. */
  lemma LessMeaning(c: seq<int>, c0: seq<int>, a: seq<int>, b: seq<int>, d: nat, pl: Player)
    requires Bounds(c0) && |c| == |a| == |b| == |c0| && d < |c|
    requires Measure(c0, a, pl) && Measure(c0, b, pl)
    requires Measure(c, a, pl) || Measure(c, b, pl)
    ensures Less(c, a, b, d, pl) <==> Rank(c0, a, pl, d) < Rank(c0, b, pl, d)
  {
    hide InRange, Number, Range, LessFrom;
    var f := First(d, pl);
    if !IsTop(a, pl) {
      RangeAbove(c0, a, pl, f);
      NumberBelow(c0, a, f);
      if !IsTop(b, pl) {
        RangeAbove(c0, b, pl, f);
        if Measure(c, a, pl) { RangeAbove(c, a, pl, f); } else { RangeAbove(c, b, pl, f); }
        NothingAbove(c0, a, b, Highest(|c|, pl) + 2);
        LessFromMeaning(c, c0, a, b, Highest(|c|, pl), f, d);
      }
    } else if !IsTop(b, pl) {
      RangeAbove(c0, b, pl, f);
      NumberBelow(c0, b, f);
    }
  }

  // ---------------------------------------------------------------------------------------------------------
  // Progress
  // ---------------------------------------------------------------------------------------------------------

  /** The carry out of the digits from `i` on when `carry` is added to digit `i` of `a`. */
  function CarryOut(c: seq<int>, a: seq<int>, i: nat, carry: nat): (r: nat)
    requires |a| == |c| && carry <= 1
    ensures r <= 1
    decreases |c| - i
  {
    if i >= |c| then carry else CarryOut(c, a, i + 2, if a[i] + carry > c[i] then 1 else 0)
  }

  /** `t` holds the digits of `a` from `i` on after adding `carry`. */
  predicate Added(c: seq<int>, a: seq<int>, t: seq<int>, i: nat, carry: nat)
    requires |a| == |t| == |c| && carry <= 1
    decreases |c| - i
  {
    i >= |c|
    || (var over := a[i] + carry > c[i];
        t[i] == (if over then 0 else a[i] + carry) && Added(c, a, t, i + 2, if over then 1 else 0))
  }

  predicate ZeroBelow(t: seq<int>, i: nat, d: nat)
    requires d <= |t| + 1
    decreases d - i
  {
    i >= d || i >= |t| || (t[i] == 0 && ZeroBelow(t, i + 2, d))
  }

  /** Only digits of `pl` differ. */
  ghost predicate OnlyPlayer(s: seq<int>, t: seq<int>, pl: Player) {
    |s| == |t| && forall i :: 0 <= i < |s| && i % 2 != pl ==> t[i] == s[i]
  }

  /** `t` is what Prog makes of `a` at priority `d`, apart from the mark for Top. */
  ghost predicate Progressed(c: seq<int>, a: seq<int>, t: seq<int>, d: nat, pl: Player)
    requires |a| == |t| == |c| >= 2 && d < |c|
  {
    var f, carry := First(d, pl), if d % 2 == pl then 1 else 0;
    if IsTop(a, pl) || CarryOut(c, a, f, carry) == 1 then IsTop(t, pl)
    else ZeroBelow(t, pl, f) && Added(c, a, t, f, carry)
  }

  /** Adding keeps the digits in range, whatever they were. */
  lemma {:induction false} AddedInRange(c: seq<int>, a: seq<int>, t: seq<int>, i: nat, carry: nat)
    requires Bounds(c) && |a| == |t| == |c| && carry <= 1 && Added(c, a, t, i, carry)
    requires forall j: nat :: i <= j < |c| && j % 2 == i % 2 ==> a[j] >= 0
    ensures InRange(c, t, i)
    decreases |c| - i
  {
    if i < |c| { AddedInRange(c, a, t, i + 2, if a[i] + carry > c[i] then 1 else 0); }
  }

  lemma {:induction false} ZeroInRange(c: seq<int>, t: seq<int>, i: nat, f: nat)
    requires Bounds(c) && |t| == |c| && i % 2 == f % 2 && i <= f <= |t| + 1 && ZeroBelow(t, i, f) && InRange(c, t, f)
    ensures InRange(c, t, i)
    decreases f - i
  {
    if i < f && i < |c| { ZeroInRange(c, t, i + 2, f); }
  }

  lemma TimesNext(k: nat, a: nat, b: nat)
    ensures Times(k, a + b) == Times(k, a) + Times(k, b)
  {
  }

  /** In range, adding is addition: the new digits and the carry out together show the old number plus the carry. */
  lemma {:induction false} AddedNumber(c: seq<int>, a: seq<int>, t: seq<int>, i: nat, carry: nat)
    requires Bounds(c) && |a| == |t| == |c| && carry <= 1 && InRange(c, a, i) && InRange(c, t, i) && Added(c, a, t, i, carry)
    ensures Number(c, t, i) + Times(CarryOut(c, a, i, carry), Range(c, i)) == Number(c, a, i) + carry
    decreases |c| - i
  {
    if i < |c| {
      var k, out := c[i] + 1, if a[i] + carry > c[i] then 1 else 0;
      AddedNumber(c, a, t, i + 2, out);
      var r, n, m := CarryOut(c, a, i + 2, out), Number(c, t, i + 2), Number(c, a, i + 2);
      var s := Range(c, i + 2);
      assert Times(r, Times(k, s)) == Times(k, Times(r, s)) by { if r == 1 { assert Times(1, s) == s; } }
      TimesNext(k, n, Times(r, s));
      TimesNext(k, m, out);
      assert n + Times(r, s) == m + out;
      assert t[i] == a[i] + carry - Times(k, out);
    }
  }

  /** If all digits overflow, so does the number; there is room for the rest otherwise. */
  lemma {:induction false} CarryMeaning(c: seq<int>, a: seq<int>, i: nat, carry: nat)
    requires Bounds(c) && |a| == |c| && carry <= 1 && InRange(c, a, i)
    ensures CarryOut(c, a, i, carry) == 1 <==> Number(c, a, i) + carry == Range(c, i)
    decreases |c| - i
  {
    if i < |c| {
      var k, m, s := c[i] + 1, Number(c, a, i + 2), Range(c, i + 2);
      var out := if a[i] + carry > c[i] then 1 else 0;
      CarryMeaning(c, a, i + 2, out);
      NumberBelow(c, a, i + 2);
      TimesNext(k, m, 1);
      if m + 1 < s { TimesLess(k, m + 1, s, 0, 0); }
      assert Times(k, 1) == k;
    }
  }

  /** With digits in range, Prog adds one (at a priority of the player) or nothing to the truncated measure, and
      gives Top exactly when that overflows. */
  lemma ProgAdds(c: seq<int>, a: seq<int>, t: seq<int>, d: nat, pl: Player)
    requires Bounds(c) && |a| == |t| == |c| && d < |c| && Measure(c, a, pl) && Progressed(c, a, t, d, pl)
    ensures Measure(c, t, pl)
    ensures var f, carry := First(d, pl), if d % 2 == pl then 1 else 0;
      var sum := Rank(c, a, pl, d) + carry;
      && Rank(c, t, pl, d) == (if sum < Range(c, f) then sum else Range(c, f))
      && (IsTop(t, pl) <==> sum >= Range(c, f))
      && (!IsTop(t, pl) ==> ZeroBelow(t, pl, f))
  {
    var f, carry := First(d, pl), if d % 2 == pl then 1 else 0;
    if !IsTop(a, pl) {
      RangeAbove(c, a, pl, f);
      NumberBelow(c, a, f);
      CarryMeaning(c, a, f, carry);
      if CarryOut(c, a, f, carry) == 0 {
        NonNegative(c, a, f);
        AddedInRange(c, a, t, f, carry);
        ZeroInRange(c, t, pl, f);
        AddedNumber(c, a, t, f, carry);
      }
    }
  }

  lemma {:induction false} NonNegative(c: seq<int>, a: seq<int>, i: nat)
    requires |a| == |c| && InRange(c, a, i)
    ensures forall j: nat :: i <= j < |c| && j % 2 == i % 2 ==> a[j] >= 0
    decreases |c| - i
  {
    if i < |c| { NonNegative(c, a, i + 2); }
  }

  /** Prog is monotone in the truncated measure. */
  lemma ProgMonotone(c: seq<int>, a: seq<int>, b: seq<int>, t: seq<int>, u: seq<int>, d: nat, pl: Player)
    requires Bounds(c) && |a| == |b| == |t| == |u| == |c| && d < |c| && Measure(c, a, pl) && Measure(c, b, pl)
    requires Progressed(c, a, t, d, pl) && Progressed(c, b, u, d, pl)
    requires Rank(c, a, pl, d) <= Rank(c, b, pl, d)
    ensures Measure(c, t, pl) && Measure(c, u, pl) && Rank(c, t, pl, d) <= Rank(c, u, pl, d)
  {
    ProgAdds(c, a, t, d, pl);
    ProgAdds(c, b, u, d, pl);
  }

  /** Digits below `f` that are zero leave the whole number at its least. */
  lemma {:induction false} LeastNumber(c: seq<int>, t: seq<int>, m: seq<int>, i: nat, f: nat)
    requires Bounds(c) && |t| == |m| == |c| && i <= f <= |c| + 1 && i % 2 == f % 2 && ZeroBelow(t, i, f)
    requires InRange(c, t, i) && InRange(c, m, i) && InRange(c, t, f) && InRange(c, m, f)
    requires Number(c, t, f) <= Number(c, m, f)
    ensures Number(c, t, i) <= Number(c, m, i)
    decreases f - i
  {
    if i < f && i < |c| {
      LeastNumber(c, t, m, i + 2, f);
      var x, y := Number(c, t, i + 2), Number(c, m, i + 2);
      TimesNext(c[i] + 1, x, y - x);
    }
  }

  /** Prog gives the least measure that is high enough: above `a` as far as `d` can tell (strictly above at a priority
      of the player, unless both are Top). */
  lemma ProgLeast(c: seq<int>, a: seq<int>, t: seq<int>, m: seq<int>, d: nat, pl: Player)
    requires Bounds(c) && |a| == |t| == |m| == |c| && d < |c| && Measure(c, a, pl) && Progressed(c, a, t, d, pl)
    requires Measure(c, m, pl) && (IsTop(m, pl) || Rank(c, m, pl, d) >= Rank(c, a, pl, d) + if d % 2 == pl then 1 else 0)
    ensures Measure(c, t, pl) && Rank(c, t, pl, 0) <= Rank(c, m, pl, 0)
  {
    ProgAdds(c, a, t, d, pl);
    var f, z := First(d, pl), First(0, pl);
    assert z == pl;
    if IsTop(m, pl) {
      if !IsTop(t, pl) { NumberBelow(c, t, pl); }
    } else {
      RangeAbove(c, m, pl, f);
      NumberBelow(c, m, f);
      RangeAbove(c, t, pl, f);
      LeastNumber(c, t, m, pl, f);
    }
  }

  /** Under bounds that shrink, Prog still gives a measure within them, and never loses: an exceeding digit only
      brings the next one forward. */
  lemma ProgRises(c: seq<int>, c0: seq<int>, a: seq<int>, t: seq<int>, d: nat, pl: Player)
    requires Bounds(c) && Bounds(c0) && |a| == |t| == |c| == |c0| && d < |c| && forall i :: 0 <= i < |c| ==> c[i] <= c0[i]
    requires Measure(c0, a, pl) && Progressed(c, a, t, d, pl)
    ensures Measure(c, t, pl) && Measure(c0, t, pl)
    ensures IsTop(t, pl) || Rank(c0, t, pl, d) >= Rank(c0, a, pl, d) + if d % 2 == pl then 1 else 0
  {
    var f, carry := First(d, pl), if d % 2 == pl then 1 else 0;
    if !IsTop(t, pl) && !IsTop(a, pl) && CarryOut(c, a, f, carry) == 0 {
      RangeAbove(c0, a, pl, f);
      NonNegative(c0, a, f);
      AddedInRange(c, a, t, f, carry);
      ZeroInRange(c, t, pl, f);
      RangeWiden(c, c0, t, pl);
      RangeAbove(c0, t, pl, f);
      AddedRises(c, c0, a, t, f, carry);
    }
  }

  lemma {:induction false} RangeWiden(c: seq<int>, c0: seq<int>, a: seq<int>, i: nat)
    requires |a| == |c| == |c0| && (forall i :: 0 <= i < |c| ==> c[i] <= c0[i]) && InRange(c, a, i)
    ensures InRange(c0, a, i)
    decreases |c| - i
  {
    if i < |c| { RangeWiden(c, c0, a, i + 2); }
  }

  lemma {:induction false} AddedRises(c: seq<int>, c0: seq<int>, a: seq<int>, t: seq<int>, i: nat, carry: nat)
    requires Bounds(c) && Bounds(c0) && |a| == |t| == |c| == |c0| && forall i :: 0 <= i < |c| ==> c[i] <= c0[i]
    requires carry <= 1 && InRange(c0, a, i) && InRange(c0, t, i) && Added(c, a, t, i, carry) && CarryOut(c, a, i, carry) == 0
    ensures Number(c0, t, i) >= Number(c0, a, i) + carry
    decreases |c| - i
  {
    if i < |c| {
      var out := if a[i] + carry > c[i] then 1 else 0;
      AddedRises(c, c0, a, t, i + 2, out);
      var k, x, y := c0[i] + 1, Number(c0, a, i + 2), Number(c0, t, i + 2);
      TimesNext(k, x, out);
      TimesNext(k, x + out, y - x - out);
      assert out == 1 ==> Times(k, 1) == k;
    }
  }

  // ---------------------------------------------------------------------------------------------------------
  // What Prog gives is determined
  // ---------------------------------------------------------------------------------------------------------

  /** The digits of `pl` agree; only Top's mark matters when that is what both show. */
  predicate SameMeasure(a: seq<int>, b: seq<int>, pl: Player)
    requires |a| == |b| >= 2
  {
    (IsTop(a, pl) && IsTop(b, pl)) || SameFrom(a, b, pl)
  }

  lemma {:induction false} AddedUnique(c: seq<int>, a: seq<int>, t: seq<int>, u: seq<int>, i: nat, carry: nat)
    requires |a| == |t| == |u| == |c| && carry <= 1 && Added(c, a, t, i, carry) && Added(c, a, u, i, carry)
    ensures SameFrom(t, u, i)
    decreases |c| - i
  {
    if i < |c| { AddedUnique(c, a, t, u, i + 2, if a[i] + carry > c[i] then 1 else 0); }
  }

  lemma {:induction false} ZeroUnique(t: seq<int>, u: seq<int>, i: nat, f: nat)
    requires |t| == |u| && i <= f <= |t| + 1 && i % 2 == f % 2 && ZeroBelow(t, i, f) && ZeroBelow(u, i, f) && SameFrom(t, u, f)
    ensures SameFrom(t, u, i)
    decreases f - i
  {
    if i < f && i < |t| { ZeroUnique(t, u, i + 2, f); }
  }

  lemma ProgUnique(c: seq<int>, a: seq<int>, t: seq<int>, u: seq<int>, d: nat, pl: Player)
    requires |a| == |t| == |u| == |c| >= 2 && d < |c| && Progressed(c, a, t, d, pl) && Progressed(c, a, u, d, pl)
    ensures SameMeasure(t, u, pl)
  {
    var f, carry := First(d, pl), if d % 2 == pl then 1 else 0;
    if !(IsTop(a, pl) || CarryOut(c, a, f, carry) == 1) {
      AddedUnique(c, a, t, u, f, carry);
      ZeroUnique(t, u, pl, f);
    }
  }

  lemma {:induction false} SameInRange(c: seq<int>, a: seq<int>, b: seq<int>, i: nat)
    requires |a| == |b| == |c| && SameFrom(a, b, i) && InRange(c, a, i)
    ensures InRange(c, b, i)
    decreases |c| - i
  {
    if i < |c| { SameInRange(c, a, b, i + 2); }
  }

  lemma {:induction false} SameAbove(a: seq<int>, b: seq<int>, i: nat, j: nat)
    requires |a| == |b| && SameFrom(a, b, i) && i <= j && i % 2 == j % 2
    ensures SameFrom(a, b, j)
    decreases |a| - i
  {
    if i < j && i < |a| { SameAbove(a, b, i + 2, j); }
  }

  lemma SameRank(c: seq<int>, a: seq<int>, b: seq<int>, pl: Player, d: nat)
    requires Bounds(c) && |a| == |b| == |c| && Measure(c, a, pl) && SameMeasure(a, b, pl)
    ensures Measure(c, b, pl) && Rank(c, a, pl, d) == Rank(c, b, pl, d)
  {
    if !(IsTop(a, pl) && IsTop(b, pl)) {
      assert a[pl] == b[pl];
      if !IsTop(a, pl) {
        SameInRange(c, a, b, pl);
        SameAbove(a, b, pl, First(d, pl));
        RangeAbove(c, a, pl, First(d, pl));
        RangeAbove(c, b, pl, First(d, pl));
        SameNumber(c, a, b, First(d, pl));
      }
    }
  }

  /** A higher truncated measure is a higher measure. */
  lemma TruncatedLess(c: seq<int>, a: seq<int>, b: seq<int>, pl: Player, d: nat)
    requires Bounds(c) && |a| == |b| == |c| && Measure(c, a, pl) && Measure(c, b, pl) && Rank(c, a, pl, d) < Rank(c, b, pl, d)
    ensures Rank(c, a, pl, 0) < Rank(c, b, pl, 0)
  {
    hide InRange, Number, Range;
    var f := First(d, pl);
    assert First(0, pl) == pl;
    if !IsTop(a, pl) {
      RangeAbove(c, a, pl, f);
      if IsTop(b, pl) {
        NumberBelow(c, a, pl);
      } else {
        RangeAbove(c, b, pl, f);
        NumberLess(c, a, b, pl, f);
      }
    } else if !IsTop(b, pl) {
      RangeAbove(c, b, pl, f);
      NumberBelow(c, b, f);
    }
  }

  lemma {:induction false} NumberLess(c: seq<int>, a: seq<int>, b: seq<int>, i: nat, f: nat)
    requires Bounds(c) && |a| == |b| == |c| && i <= f && i % 2 == f % 2
    requires InRange(c, a, i) && InRange(c, b, i) && InRange(c, a, f) && InRange(c, b, f) && Number(c, a, f) < Number(c, b, f)
    ensures Number(c, a, i) < Number(c, b, i)
    decreases f - i
  {
    if i < f && i < |c| {
      NumberLess(c, a, b, i + 2, f);
      TimesLess(c[i] + 1, Number(c, a, i + 2), Number(c, b, i + 2), a[i], b[i]);
    }
  }

  // ---------------------------------------------------------------------------------------------------------
  // When Prog is least under bounds that have shrunk
  // ---------------------------------------------------------------------------------------------------------

  /** Some digit from `i` on overflows when `carry` is added to digit `i`. */
  predicate Overflows(c: seq<int>, a: seq<int>, i: nat, carry: nat)
    requires |a| == |c| && carry <= 1
    decreases |c| - i
  {
    i < |c| && (a[i] + carry > c[i] || Overflows(c, a, i + 2, 0))
  }

  /** Every digit from `i` on that lies below an overflowing one overflows itself, or is zero and receives no carry. */
  predicate Undisturbed(c: seq<int>, a: seq<int>, i: nat, carry: nat)
    requires |a| == |c| && carry <= 1
    decreases |c| - i
  {
    i >= |c|
    || (var over := a[i] + carry > c[i];
        (over || a[i] + carry == 0 || !Overflows(c, a, i + 2, 0)) && Undisturbed(c, a, i + 2, if over then 1 else 0))
  }

  ghost predicate Shrunk(c: seq<int>, c0: seq<int>) {
    Bounds(c) && Bounds(c0) && |c| == |c0| && forall i :: 0 <= i < |c| ==> c[i] <= c0[i]
  }

  /** `m` respects the bounds `c` and is high enough after `a` as far as priority `d` can tell. */
  ghost predicate HighEnough(c: seq<int>, c0: seq<int>, a: seq<int>, m: seq<int>, d: nat, pl: Player)
    requires Shrunk(c, c0) && |a| == |c| && Measure(c0, a, pl)
  {
    && |m| == |c| && Measure(c, m, pl) && Measure(c0, m, pl)
    && (IsTop(m, pl) || Rank(c0, m, pl, d) >= Rank(c0, a, pl, d) + if d % 2 == pl then 1 else 0)
  }

  /** No measure that is high enough is lower than `t`. */
  ghost predicate Least(c: seq<int>, c0: seq<int>, a: seq<int>, t: seq<int>, d: nat, pl: Player)
    requires Shrunk(c, c0) && |a| == |t| == |c| && Measure(c0, a, pl) && Measure(c0, t, pl)
  {
    forall m :: HighEnough(c, c0, a, m, d, pl) ==> Rank(c0, t, pl, 0) <= Rank(c0, m, pl, 0)
  }

  lemma TimesOrder(k: nat, x: nat, y: nat)
    ensures x <= y ==> Times(k, x) <= Times(k, y)
  {
    assert x <= y ==> k * (y - x) >= 0;
  }

  /** A number that reaches the sum carries where the sum does. */
  lemma CarryReached(k: nat, bound: int, m: nat, a: nat, carry: nat, x: nat, y: nat)
    requires carry <= 1 && bound < k && m <= bound && a < k && m + Times(k, x) >= a + carry + Times(k, y)
    ensures x >= y + if a + carry > bound then 1 else 0
  {
    if a + carry > bound {
      TimesOrder(k, x, y);
    } else {
      if x < y { TimesLess(k, x, y, m, a + carry); }
    }
  }

  /** Within the new bounds there is nothing above a sum that carries out. */
  lemma {:induction false} NoneReaches(c: seq<int>, c0: seq<int>, a: seq<int>, m: seq<int>, i: nat, carry: nat)
    requires Shrunk(c, c0) && |a| == |m| == |c| && carry <= 1
    requires InRange(c0, a, i) && InRange(c, m, i) && InRange(c0, m, i) && CarryOut(c, a, i, carry) == 1
    ensures Number(c0, m, i) < Number(c0, a, i) + carry
    decreases |c| - i
  {
    if i < |c| {
      NoneReaches(c, c0, a, m, i + 2, if a[i] + carry > c[i] then 1 else 0);
      if Number(c0, m, i) >= Number(c0, a, i) + carry {
        CarryReached(c0[i] + 1, c[i], m[i], a[i], carry, Number(c0, m, i + 2), Number(c0, a, i + 2));
      }
    }
  }

  /** Without overflow, adding is addition under the old bounds, too. */
  lemma {:induction false} AddedExactly(c: seq<int>, c0: seq<int>, a: seq<int>, t: seq<int>, i: nat)
    requires Shrunk(c, c0) && |a| == |t| == |c|
    requires InRange(c0, a, i) && InRange(c0, t, i) && Added(c, a, t, i, 0) && !Overflows(c, a, i, 0)
    ensures Number(c0, t, i) == Number(c0, a, i)
    decreases |c| - i
  {
    if i < |c| { AddedExactly(c, c0, a, t, i + 2); }
  }

  /** A digit that overflows without receiving a carry raises the number. */
  lemma {:induction false} OverflowRaises(c: seq<int>, c0: seq<int>, a: seq<int>, t: seq<int>, i: nat)
    requires Shrunk(c, c0) && |a| == |t| == |c| && CarryOut(c, a, i, 0) == 0
    requires InRange(c0, a, i) && InRange(c0, t, i) && Added(c, a, t, i, 0) && Overflows(c, a, i, 0)
    ensures Number(c0, t, i) > Number(c0, a, i)
    decreases |c| - i
  {
    if a[i] > c[i] {
      AddedRises(c, c0, a, t, i + 2, 1);
    } else {
      OverflowRaises(c, c0, a, t, i + 2);
    }
    TimesLess(c0[i] + 1, Number(c0, a, i + 2), Number(c0, t, i + 2), a[i], t[i]);
  }

  /** An undisturbed sum is the least number within the new bounds that reaches it. */
  lemma {:induction false} UndisturbedLeast(c: seq<int>, c0: seq<int>, a: seq<int>, t: seq<int>, m: seq<int>, i: nat, carry: nat)
    requires Shrunk(c, c0) && |a| == |t| == |m| == |c| && carry <= 1
    requires InRange(c0, a, i) && InRange(c0, t, i) && InRange(c, t, i) && InRange(c, m, i) && InRange(c0, m, i)
    requires Added(c, a, t, i, carry) && CarryOut(c, a, i, carry) == 0 && Undisturbed(c, a, i, carry)
    requires Number(c0, m, i) >= Number(c0, a, i) + carry
    ensures Number(c0, t, i) <= Number(c0, m, i)
    decreases |c| - i
  {
    if i < |c| {
      var k, x, y, z := c0[i] + 1, Number(c0, m, i + 2), Number(c0, a, i + 2), Number(c0, t, i + 2);
      CarryReached(k, c[i], m[i], a[i], carry, x, y);
      UndisturbedLeast(c, c0, a, t, m, i + 2, if a[i] + carry > c[i] then 1 else 0);
      if z < x {
        TimesLess(k, z, x, t[i], m[i]);
      } else if a[i] + carry <= c[i] && a[i] + carry > 0 {
        AddedExactly(c, c0, a, t, i + 2);
      }
    }
  }

  /** Clearing a digit leaves the others in range and the number no higher. */
  lemma {:induction false} ClearedInRange(c: seq<int>, t: seq<int>, i: nat, p: nat)
    requires Bounds(c) && |t| == |c| && p < |c| && InRange(c, t, i)
    ensures InRange(c, t[p := 0], i)
    ensures i > p ==> Number(c, t[p := 0], i) == Number(c, t, i)
    decreases |c| - i
  {
    if i < |c| { ClearedInRange(c, t, i + 2, p); }
  }

  /** If some digit is disturbed, it can be cleared: the sum is still reached, by a lower number. */
  lemma {:induction false} DisturbedNotLeast(c: seq<int>, c0: seq<int>, a: seq<int>, t: seq<int>, i: nat, carry: nat) returns (p: nat)
    requires Shrunk(c, c0) && |a| == |t| == |c| && carry <= 1
    requires InRange(c0, a, i) && InRange(c0, t, i) && Added(c, a, t, i, carry) && CarryOut(c, a, i, carry) == 0
    requires !Undisturbed(c, a, i, carry)
    ensures i <= p < |c| && p % 2 == i % 2 && InRange(c0, t[p := 0], i)
    ensures Number(c0, a, i) + carry <= Number(c0, t[p := 0], i) < Number(c0, t, i)
    decreases |c| - i
  {
    var k, over := c0[i] + 1, a[i] + carry > c[i];
    var y, z := Number(c0, a, i + 2), Number(c0, t, i + 2);
    if !over && a[i] + carry > 0 && Overflows(c, a, i + 2, 0) {
      p := i;
      ClearedInRange(c0, t, i, i);
      ClearedInRange(c0, t, i + 2, i);
      OverflowRaises(c, c0, a, t, i + 2);
      TimesLess(k, y, z, a[i] + carry, 0);
    } else {
      p := DisturbedNotLeast(c, c0, a, t, i + 2, if over then 1 else 0);
      ClearedInRange(c0, t, i, p);
      var x := Number(c0, t[p := 0], i + 2);
      TimesLess(k, x, z, t[i], t[i]);
      if over {
        TimesNext(k, y, 1);
        TimesNext(k, y + 1, x - y - 1);
        assert Times(k, 1) == k;
      } else {
        TimesNext(k, y, x - y);
      }
    }
  }

  /** The exact condition: what Prog gives under the bounds `c`, for a measure that respected `c0`, is the least measure
      that is high enough if and only if it is Top or no digit below an overflowing one keeps anything. */
  lemma ProgLeastIff(c: seq<int>, c0: seq<int>, a: seq<int>, t: seq<int>, d: nat, pl: Player)
    requires Shrunk(c, c0) && |a| == |t| == |c| && d < |c| && Measure(c0, a, pl) && Progressed(c, a, t, d, pl)
    ensures Measure(c0, t, pl) && Measure(c, t, pl)
    ensures var f, carry := First(d, pl), if d % 2 == pl then 1 else 0;
      Least(c, c0, a, t, d, pl) <==>
        IsTop(a, pl) || CarryOut(c, a, f, carry) == 1 || Undisturbed(c, a, f, carry)
  {
    hide Least, HighEnough, InRange, Number, Range, Added, CarryOut, Undisturbed;
    ProgRises(c, c0, a, t, d, pl);
    var f, carry := First(d, pl), if d % 2 == pl then 1 else 0;
    if IsTop(a, pl) || CarryOut(c, a, f, carry) == 1 {
      TopLeast(c, c0, a, t, d, pl);
    } else if Undisturbed(c, a, f, carry) {
      UndisturbedIsLeast(c, c0, a, t, d, pl);
    } else {
      NotTop(c, c0, a, t, d, pl);
      DisturbedBelow(c, c0, a, t, d, pl);
    }
  }

  /** Top is least when nothing else is high enough. */
  lemma TopLeast(c: seq<int>, c0: seq<int>, a: seq<int>, t: seq<int>, d: nat, pl: Player)
    requires Shrunk(c, c0) && |a| == |t| == |c| && d < |c| && Measure(c0, a, pl) && IsTop(t, pl)
    requires IsTop(a, pl) || CarryOut(c, a, First(d, pl), if d % 2 == pl then 1 else 0) == 1
    ensures Least(c, c0, a, t, d, pl)
  {
    hide InRange, Number, Range, CarryOut;
    var f, carry := First(d, pl), if d % 2 == pl then 1 else 0;
    forall m | HighEnough(c, c0, a, m, d, pl) ensures Rank(c0, t, pl, 0) <= Rank(c0, m, pl, 0) {
      if !IsTop(m, pl) {
        RangeAbove(c0, m, pl, f);
        RangeAbove(c, m, pl, f);
        NumberBelow(c0, m, f);
        if !IsTop(a, pl) {
          RangeAbove(c0, a, pl, f);
          NoneReaches(c, c0, a, m, f, carry);
        }
      }
    }
  }

  lemma UndisturbedIsLeast(c: seq<int>, c0: seq<int>, a: seq<int>, t: seq<int>, d: nat, pl: Player)
    requires Shrunk(c, c0) && |a| == |t| == |c| && d < |c| && Measure(c0, a, pl) && Progressed(c, a, t, d, pl)
    requires Measure(c0, t, pl) && Measure(c, t, pl)
    requires var f, carry := First(d, pl), if d % 2 == pl then 1 else 0;
      !IsTop(a, pl) && CarryOut(c, a, f, carry) == 0 && Undisturbed(c, a, f, carry)
    ensures Least(c, c0, a, t, d, pl)
  {
    hide InRange, Number, Range, CarryOut, Progressed, Undisturbed, Rank;
    forall m | HighEnough(c, c0, a, m, d, pl) ensures Rank(c0, t, pl, 0) <= Rank(c0, m, pl, 0) {
      UndisturbedBelow(c, c0, a, t, m, d, pl);
    }
  }

  lemma UndisturbedBelow(c: seq<int>, c0: seq<int>, a: seq<int>, t: seq<int>, m: seq<int>, d: nat, pl: Player)
    requires Shrunk(c, c0) && |a| == |t| == |c| && d < |c| && Measure(c0, a, pl) && Progressed(c, a, t, d, pl)
    requires Measure(c0, t, pl) && Measure(c, t, pl) && HighEnough(c, c0, a, m, d, pl)
    requires var f, carry := First(d, pl), if d % 2 == pl then 1 else 0;
      !IsTop(a, pl) && CarryOut(c, a, f, carry) == 0 && Undisturbed(c, a, f, carry)
    ensures Rank(c0, t, pl, 0) <= Rank(c0, m, pl, 0)
  {
    hide InRange, Number, Range, CarryOut, Added, Undisturbed, ZeroBelow;
    var f, carry := First(d, pl), if d % 2 == pl then 1 else 0;
    assert First(0, pl) == pl;
    if IsTop(m, pl) {
      if !IsTop(t, pl) { NumberBelow(c0, t, pl); }
    } else if !IsTop(t, pl) {
      RangeAbove(c0, a, pl, f);
      RangeAbove(c0, t, pl, f);
      RangeAbove(c, t, pl, f);
      RangeAbove(c0, m, pl, f);
      RangeAbove(c, m, pl, f);
      UndisturbedLeast(c, c0, a, t, m, f, carry);
      LeastNumber(c0, t, m, pl, f);
    } else {
      NotTop(c, c0, a, t, d, pl);
    }
  }

  /** A sum that does not carry out is not Top. */
  lemma NotTop(c: seq<int>, c0: seq<int>, a: seq<int>, t: seq<int>, d: nat, pl: Player)
    requires Shrunk(c, c0) && |a| == |t| == |c| && d < |c| && Measure(c0, a, pl) && Progressed(c, a, t, d, pl)
    requires !IsTop(a, pl) && CarryOut(c, a, First(d, pl), if d % 2 == pl then 1 else 0) == 0
    ensures !IsTop(t, pl)
  {
    hide CarryOut;
    var f := First(d, pl);
    if pl < f { assert ZeroBelow(t, pl, f); }
  }

  lemma DisturbedBelow(c: seq<int>, c0: seq<int>, a: seq<int>, t: seq<int>, d: nat, pl: Player)
    requires Shrunk(c, c0) && |a| == |t| == |c| && d < |c| && Measure(c0, a, pl) && Progressed(c, a, t, d, pl)
    requires Measure(c0, t, pl) && Measure(c, t, pl) && !IsTop(t, pl)
    requires var f, carry := First(d, pl), if d % 2 == pl then 1 else 0;
      !IsTop(a, pl) && CarryOut(c, a, f, carry) == 0 && !Undisturbed(c, a, f, carry)
    ensures !Least(c, c0, a, t, d, pl)
  {
    hide InRange, Number, Range, CarryOut, Added, Undisturbed, ZeroBelow;
    var f, carry := First(d, pl), if d % 2 == pl then 1 else 0;
    assert First(0, pl) == pl;
    RangeAbove(c0, a, pl, f);
    RangeAbove(c0, t, pl, f);
    var p := DisturbedNotLeast(c, c0, a, t, f, carry);
    var m := t[p := 0];
    ClearedInRange(c, t, pl, p);
    ClearedInRange(c0, t, pl, p);
    NumberLess(c0, m, t, pl, f);
    assert HighEnough(c, c0, a, m, d, pl);
  }

  /** Bounds that have shrunk, and a measure after which Prog does not give the least one: digit 2 keeps its 1 although
      digit 4 overflows. */
  lemma ProgOvershoots() returns (c: seq<int>, c0: seq<int>, a: seq<int>, t: seq<int>)
    ensures Shrunk(c, c0) && |a| == |t| == |c| == 7 && Measure(c0, a, 0) && Measure(c0, t, 0)
    ensures Progressed(c, a, t, 1, 0) && !Least(c, c0, a, t, 1, 0)
  {
    hide Least;
    c, c0, a := [0, 0, 1, 0, 0, 0, 1], [0, 0, 1, 0, 1, 0, 1], [0, 0, 1, 0, 1, 0, 0];
    t := [0, 0, 1, 0, 0, 0, 1];
    assert Added(c, a, t, 6, 1) && CarryOut(c, a, 6, 1) == 0;
    assert Added(c, a, t, 4, 0) && CarryOut(c, a, 4, 0) == 0 && Overflows(c, a, 4, 0);
    assert Added(c, a, t, 2, 0) && CarryOut(c, a, 2, 0) == 0 && !Undisturbed(c, a, 2, 0);
    assert InRange(c0, a, 6) && InRange(c0, a, 4) && InRange(c0, a, 2) && InRange(c0, a, 0);
    assert ZeroBelow(t, 2, 2) && ZeroBelow(t, 0, 2);
    ProgLeastIff(c, c0, a, t, 1, 0);
  }
}
