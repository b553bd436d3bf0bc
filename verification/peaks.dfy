/**
 * The loudest and second-loudest speaker volume, as the speaker loop of the
 * volume slider computes them: both start at 0, so volumes at or below 0 never
 * raise them, and a second speaker at the loudest volume counts as the second
 * loudest.
 */
module Peaks {

  function Max(a: int, b: int): int { if a >= b then a else b }

  /** The largest value of `s`, or 0 when `s` holds nothing above 0. */
  function Peak(s: seq<int>): (m: int)
    ensures 0 <= m
    ensures forall i :: 0 <= i < |s| ==> s[i] <= m
    ensures m == 0 || m in s
  {
    if s == [] then 0
    else
      var init := s[..|s| - 1];
      assert s == init + [s[|s| - 1]];
      Max(Peak(init), s[|s| - 1])
  }

  /** `s` with its first occurrence of `x` taken out (unchanged when `x` does not occur). */
  function RemoveOne(s: seq<int>, x: int): seq<int>
  {
    if s == [] then []
    else if s[0] == x then s[1..]
    else [s[0]] + RemoveOne(s[1..], x)
  }

  /** RemoveOne takes out exactly one occurrence of `x`, if there is one, and nothing else. */
  lemma {:induction false} RemoveOneMultiset(s: seq<int>, x: int)
    ensures multiset(RemoveOne(s, x)) == multiset(s) - multiset{x}
  {
    if s != [] {
      assert s == [s[0]] + s[1..];
      assert multiset(s) == multiset{s[0]} + multiset(s[1..]);
      if s[0] != x {
        RemoveOneMultiset(s[1..], x);
        assert RemoveOne(s, x) == [s[0]] + RemoveOne(s[1..], x);
        assert multiset(RemoveOne(s, x)) == multiset{s[0]} + multiset(RemoveOne(s[1..], x));
      }
    }
  }

  /** The pair (loudest, second loudest) that the loop over `s` leaves behind. */
  function Top2(s: seq<int>): (int, int)
  {
    var m := Peak(s);
    (m, Peak(RemoveOne(s, m)))
  }

  /** One iteration of the speaker loop: the new volume `v` against the pair so far. */
  function ScanStep(acc: (int, int), v: int): (int, int)
  {
    if v > acc.0 then (v, acc.0)
    else if v > acc.1 then (acc.0, v)
    else acc
  }

  lemma {:induction false} RemoveOneAbsent(s: seq<int>, x: int)
    requires x !in s
    ensures RemoveOne(s, x) == s
  {
    if s != [] {
      RemoveOneAbsent(s[1..], x);
    }
  }

  lemma {:induction false} RemoveOneAppend(p: seq<int>, x: int, y: int)
    ensures y in p ==> RemoveOne(p + [x], y) == RemoveOne(p, y) + [x]
    ensures y !in p && x == y ==> RemoveOne(p + [x], y) == p
    ensures y !in p && x != y ==> RemoveOne(p + [x], y) == p + [x]
  {
    if p == [] {
      assert p + [x] == [x];
    } else {
      var q := p + [x];
      assert q[0] == p[0];
      assert q[1..] == p[1..] + [x];
      if p[0] != y {
        RemoveOneAppend(p[1..], x, y);
        assert y in p ==> y in p[1..];
        assert y !in p ==> y !in p[1..];
        assert RemoveOne(q, y) == [p[0]] + RemoveOne(p[1..] + [x], y);
        assert RemoveOne(p, y) == [p[0]] + RemoveOne(p[1..], y);
      }
    }
  }

  lemma PeakAppend(p: seq<int>, x: int)
    ensures Peak(p + [x]) == Max(Peak(p), x)
  {
    assert (p + [x])[..|p|] == p;
  }

  /** The loop's step keeps the pair equal to Top2 of the volumes scanned so far. */
  lemma Top2Step(p: seq<int>, x: int)
    ensures Top2(p + [x]) == ScanStep(Top2(p), x)
  {
    var m := Peak(p);
    PeakAppend(p, x);
    RemoveOneAppend(p, x, Peak(p + [x]));
    if x > m {
      assert x !in p;
    } else if m in p {
      PeakAppend(RemoveOne(p, m), x);
    } else {
      assert m == 0;
      RemoveOneAbsent(p, m);
      if x != m {
        PeakAppend(p, x);
      }
    }
  }

  /** Every element of RemoveOne(s, x) is an element of s. */
  lemma RemoveOneSub(s: seq<int>, x: int, v: int)
    requires v in RemoveOne(s, x)
    ensures v in s
  {
    RemoveOneMultiset(s, x);
    assert v in multiset(RemoveOne(s, x));
  }

  /** The second loudest never exceeds the loudest. */
  lemma SecondBelowPeak(s: seq<int>)
    ensures 0 <= Top2(s).1 <= Top2(s).0
  {
    var r := RemoveOne(s, Peak(s));
    if Peak(r) != 0 {
      RemoveOneSub(s, Peak(s), Peak(r));
    }
  }

  /** A value held at two positions survives the removal of one occurrence of it. */
  lemma {:induction false} RemoveOneKeepsTwin(s: seq<int>, x: int, i: int, j: int)
    requires 0 <= i < |s| && 0 <= j < |s| && i != j
    requires s[i] == s[j] == x
    ensures x in RemoveOne(s, x)
  {
    if s[0] == x {
      var k := if i == 0 then j else i;
      assert s[1..][k - 1] == x;
    } else {
      RemoveOneKeepsTwin(s[1..], x, i - 1, j - 1);
    }
  }

  /** A loudest volume held by two speakers is also the second loudest: duplicates count. */
  lemma DuplicatePeak(s: seq<int>, i: int, j: int)
    requires 0 <= i < |s| && 0 <= j < |s| && i != j
    requires s[i] == s[j] == Peak(s)
    ensures Top2(s).1 == Top2(s).0
  {
    RemoveOneKeepsTwin(s, Peak(s), i, j);
    SecondBelowPeak(s);
  }

  /** A second loudest above 0 is some value left after removing one loudest. */
  lemma SecondIsLeftOver(s: seq<int>)
    ensures Top2(s).1 == 0 || Top2(s).1 in multiset(s) - multiset{Top2(s).0}
  {
    RemoveOneMultiset(s, Peak(s));
  }

  /** The peaks depend only on which volumes occur how often, not on speaker order. */
  lemma {:induction false} PeakPermutation(s: seq<int>, t: seq<int>)
    requires multiset(s) == multiset(t)
    ensures Peak(s) == Peak(t)
  {
    var a, b := Peak(s), Peak(t);
    if a != 0 {
      assert a in multiset(t);
      assert a <= b;
    }
    if b != 0 {
      assert b in multiset(s);
      assert b <= a;
    }
  }

  lemma Top2Permutation(s: seq<int>, t: seq<int>)
    requires multiset(s) == multiset(t)
    ensures Top2(s) == Top2(t)
  {
    PeakPermutation(s, t);
    RemoveOneMultiset(s, Peak(s));
    RemoveOneMultiset(t, Peak(t));
    PeakPermutation(RemoveOne(s, Peak(s)), RemoveOne(t, Peak(t)));
  }
}
