/**
 * The six special combinations of a hand (brelan, carre, full_house,
 * petite_suite, grande_suite, yams): each is a specification predicate on the
 * dice and a method that decides it with the flag loops of the source.
 */
module Combinations {
  import opened Dice

  /** Brelan: some face shows on at least three dice. */
  predicate IsThreeOfAKind(d: seq<int>) {
    exists f :: 1 <= f <= NumFaces && Count(d, f) >= 3
  }

  /** Carré: some face shows on at least four dice. */
  predicate IsFourOfAKind(d: seq<int>) {
    exists f :: 1 <= f <= NumFaces && Count(d, f) >= 4
  }

  /** Full House: some face shows exactly three times and some face exactly twice. */
  predicate IsFullHouse(d: seq<int>) {
    (exists f :: 1 <= f <= NumFaces && Count(d, f) == 3) && (exists g :: 1 <= g <= NumFaces && Count(d, g) == 2)
  }

  /** Yams: some face shows on all five dice. */
  predicate IsYams(d: seq<int>) {
    exists f :: 1 <= f <= NumFaces && Count(d, f) == 5
  }

  /** Every face from `lo` to `lo + len - 1` shows on at least one die. */
  predicate Run(d: seq<int>, lo: int, len: int) {
    forall f :: lo <= f < lo + len ==> Count(d, f) >= 1
  }

  /** Petite suite: the faces 1-4, 2-5 or 3-6 are all present. */
  predicate IsSmallStraight(d: seq<int>) {
    Run(d, 1, 4) || Run(d, 2, 4) || Run(d, 3, 4)
  }

  /** Grande suite: the faces 1-5 or 2-6 are all present. */
  predicate IsLargeStraight(d: seq<int>) {
    Run(d, 1, 5) || Run(d, 2, 5)
  }

  /** Each die of a sorted copy is one more than the die before it. */
  predicate Consecutive(s: seq<int>) {
    forall j :: 0 <= j < |s| - 1 ==> s[j] == s[j + 1] - 1
  }

  /** brelan: a flag set by any counter of at least 3. */
  method CheckThreeOfAKind(des: array<int>) returns (r: bool)
    requires ValidHand(des[..])
    ensures r == IsThreeOfAKind(des[..])
  {
    var occ := new int[NumFaces];
    CountDice(des, occ);
    r := false;
    for i := 0 to NumFaces
      invariant r <==> exists f :: 1 <= f <= i && Count(des[..], f) >= 3
    {
      if occ[i] >= 3 {
        r := true;
      }
    }
  }

  /** carre: a flag set by any counter of at least 4. */
  method CheckFourOfAKind(des: array<int>) returns (r: bool)
    requires ValidHand(des[..])
    ensures r == IsFourOfAKind(des[..])
  {
    var occ := new int[NumFaces];
    CountDice(des, occ);
    r := false;
    for i := 0 to NumFaces
      invariant r <==> exists f :: 1 <= f <= i && Count(des[..], f) >= 4
    {
      if occ[i] >= 4 {
        r := true;
      }
    }
  }

  /** full_house: one flag for a counter of exactly 3, another for a counter of exactly 2. */
  method CheckFullHouse(des: array<int>) returns (r: bool)
    requires ValidHand(des[..])
    ensures r == IsFullHouse(des[..])
  {
    var occ := new int[NumFaces];
    CountDice(des, occ);
    var pair, three := false, false;
    for i := 0 to NumFaces
      invariant three <==> exists f :: 1 <= f <= i && Count(des[..], f) == 3
      invariant pair <==> exists g :: 1 <= g <= i && Count(des[..], g) == 2
    {
      if occ[i] == 3 {
        three := true;
      } else if occ[i] == 2 {
        pair := true;
      }
    }
    r := pair && three;
  }

  /** yams: a flag set by a counter of exactly 5. */
  method CheckYams(des: array<int>) returns (r: bool)
    requires ValidHand(des[..])
    ensures r == IsYams(des[..])
  {
    var occ := new int[NumFaces];
    CountDice(des, occ);
    r := false;
    for i := 0 to NumFaces
      invariant r <==> exists f :: 1 <= f <= i && Count(des[..], f) == 5
    {
      if occ[i] == 5 {
        r := true;
      }
    }
  }

  /**
   * petite_suite: tries the windows of four faces starting at 1, 2 and 3 in
   * turn, and stops at the first one whose counters are all non-zero.
   */
  method CheckSmallStraight(des: array<int>) returns (r: bool)
    requires ValidHand(des[..])
    ensures r == IsSmallStraight(des[..])
  {
    var occ := new int[NumFaces];
    CountDice(des, occ);
    r := false;
    var i := 0;
    while i < 3
      invariant 0 <= i <= 3 && !r
      invariant forall lo :: 1 <= lo <= i ==> !Run(des[..], lo, 4)
    {
      r := true;
      for j := i to i + 4
        invariant r <==> Run(des[..], i + 1, j - i)
      {
        if occ[j] == 0 {
          r := false;
        }
      }
      if r {
        break;
      }
      i := i + 1;
    }
  }

  /**
   * grande_suite: sorts a copy of the dice and checks that each die is one
   * less than the next.
   */
  method CheckLargeStraight(des: array<int>) returns (r: bool)
    requires ValidHand(des[..])
    ensures r == IsLargeStraight(des[..])
  {
    var sorted := new int[NumDice];
    SortDice(des, sorted);
    r := true;
    for j := 0 to NumDice - 1
      invariant r <==> forall k :: 0 <= k < j ==> sorted[k] == sorted[k + 1] - 1
    {
      if sorted[j] != sorted[j + 1] - 1 {
        r := false;
      }
    }
    LargeStraightSorted(des[..], sorted[..]);
  }

  /** Carré implies brelan. */
  lemma FourImpliesThree(d: seq<int>)
    ensures IsFourOfAKind(d) ==> IsThreeOfAKind(d)
  {
  }

  /** Yams implies carré. */
  lemma YamsImpliesFour(d: seq<int>)
    ensures IsYams(d) ==> IsFourOfAKind(d)
  {
  }

  /** A count of 5 leaves no die for a second face, so yams and full house exclude each other. */
  lemma YamsIsNotFullHouse(d: seq<int>)
    requires ValidHand(d)
    ensures !(IsYams(d) && IsFullHouse(d))
  {
    HandHistogram(d);
    if IsYams(d) && IsFullHouse(d) {
      var f :| 1 <= f <= NumFaces && Count(d, f) == 5;
      var g :| 1 <= g <= NumFaces && Count(d, g) == 3;
      assert false;
    }
  }

  /** Grande suite implies petite suite. */
  lemma LargeImpliesSmall(d: seq<int>)
    ensures IsLargeStraight(d) ==> IsSmallStraight(d)
  {
  }

  /** A sorted hand runs through consecutive faces exactly when it is 1-5 or 2-6. */
  lemma ConsecutiveIffStraightSeq(s: seq<int>)
    requires ValidHand(s) && Sorted(s)
    ensures Consecutive(s) <==> (s == [1, 2, 3, 4, 5] || s == [2, 3, 4, 5, 6])
  {
    if Consecutive(s) {
      assert s[1] == s[0] + 1 && s[2] == s[0] + 2 && s[3] == s[0] + 3 && s[4] == s[0] + 4;
      assert IsFace(s[0]) && IsFace(s[4]);
      assert s == [s[0], s[0] + 1, s[0] + 2, s[0] + 3, s[0] + 4];
    }
  }

  /** A sorted hand whose faces include a run of five is consecutive. */
  lemma RunIsConsecutive(s: seq<int>, lo: int)
    requires ValidHand(s) && Sorted(s)
    requires lo == 1 || lo == 2
    requires Run(s, lo, 5)
    ensures Consecutive(s)
  {
    HandHistogram(s);
    // The five faces of the run use up all five dice: each shows once, the
    // sixth face not at all.
    assert forall f :: lo <= f < lo + 5 ==> Count(s, f) == 1;
    var outside := if lo == 1 then 6 else 1;
    assert Count(s, outside) == 0;
    forall k | 0 <= k < NumDice
      ensures lo <= s[k] < lo + 5
    {
      assert s[k] in multiset(s);
      assert IsFace(s[k]);
    }
    forall k | 0 <= k < NumDice - 1
      ensures s[k] < s[k + 1]
    {
      if s[k] == s[k + 1] {
        TwoDiceSameFace(s, k, k + 1);
      }
    }
  }

  /** A sorted hand whose consecutive dice step by one contains a run of five. */
  lemma ConsecutiveIsRun(s: seq<int>)
    requires ValidHand(s) && Sorted(s) && Consecutive(s)
    ensures IsLargeStraight(s)
  {
    ConsecutiveIffStraightSeq(s);
    var lo := s[0];
    assert forall k :: 0 <= k < NumDice ==> s[k] == lo + k;
    forall f | lo <= f < lo + 5
      ensures Count(s, f) >= 1
    {
      assert s[f - lo] == f;
      assert s[f - lo] in multiset(s);
    }
    assert Run(s, lo, 5);
  }

  /**
   * For any hand and its sorted copy: grande suite holds exactly when the
   * copy steps by one, which is exactly when the copy is 1-5 or 2-6.
   */
  lemma LargeStraightSorted(d: seq<int>, s: seq<int>)
    requires ValidHand(d) && |s| == NumDice && Sorted(s) && multiset(s) == multiset(d)
    ensures IsLargeStraight(d) <==> Consecutive(s)
    ensures IsLargeStraight(d) <==> (s == [1, 2, 3, 4, 5] || s == [2, 3, 4, 5, 6])
  {
    forall k | 0 <= k < NumDice
      ensures IsFace(s[k])
    {
      assert s[k] in multiset(d);
    }
    assert ValidHand(s);
    assert forall f :: Count(s, f) == Count(d, f);
    assert IsLargeStraight(s) == IsLargeStraight(d);
    if IsLargeStraight(s) {
      RunIsConsecutive(s, if Run(s, 1, 5) then 1 else 2);
    }
    if Consecutive(s) {
      ConsecutiveIsRun(s);
    }
    ConsecutiveIffStraightSeq(s);
  }
}
