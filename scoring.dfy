/**
 * The points a hand scores in each of the thirteen categories
 * (compter_points). Indices 0..5 are the face totals, 6 brelan, 7 carré,
 * 8 full house, 9 petite suite, 10 grande suite, 11 yams and 12 chance.
 */
module Scoring {
  import opened Dice
  import opened Combinations


  /** Sum of the first `n` dice. */
  function DiceSum(d: seq<int>, n: nat): int
    requires n <= |d|
  {
    if n == 0 then 0 else DiceSum(d, n - 1) + d[n - 1]
  }

  /** Sum of those of the first `n` dice whose face shows at least `k` times in the whole hand. */
  function GroupSum(d: seq<int>, n: nat, k: int): int
    requires n <= |d|
  {
    if n == 0 then 0
    else GroupSum(d, n - 1, k) + if Count(d, d[n - 1]) >= k then d[n - 1] else 0
  }

  /**
   * The points of category `c` for hand `d`. Brelan and carré add up only the
   * dice of the face that makes the combination; an index outside 0..12
   * scores nothing.
   */
  function Score(c: int, d: seq<int>): int
    requires ValidHand(d)
  {
    if 0 <= c < 6 then Count(d, c + 1) * (c + 1)
    else if c == 6 then (if IsThreeOfAKind(d) then GroupSum(d, NumDice, 3) else 0)
    else if c == 7 then (if IsFourOfAKind(d) then GroupSum(d, NumDice, 4) else 0)
    else if c == 8 then (if IsFullHouse(d) then 25 else 0)
    else if c == 9 then (if IsSmallStraight(d) then 30 else 0)
    else if c == 10 then (if IsLargeStraight(d) then 40 else 0)
    else if c == 11 then (if IsYams(d) then 50 else 0)
    else if c == 12 then DiceSum(d, NumDice)
    else 0
  }

  /** compter_points: the switch on the category, with its accumulator loops. */
  method ComputePoints(c: int, des: array<int>) returns (r: int)
    requires ValidHand(des[..])
    ensures r == Score(c, des[..])
  {
    var occ := new int[NumFaces];
    CountDice(des, occ);
    r := 0;
    if 0 <= c < 6 {
      r := occ[c] * (c + 1);
    } else if c == 6 {
      var three := CheckThreeOfAKind(des);
      if three {
        for i := 0 to NumDice
          invariant r == GroupSum(des[..], i, 3)
        {
          if occ[des[i] - 1] >= 3 {
            r := r + des[i];
          }
        }
      }
    } else if c == 7 {
      var four := CheckFourOfAKind(des);
      if four {
        for i := 0 to NumDice
          invariant r == GroupSum(des[..], i, 4)
        {
          if occ[des[i] - 1] >= 4 {
            r := r + des[i];
          }
        }
      }
    } else if c == 8 {
      var fullHouse := CheckFullHouse(des);
      if fullHouse {
        r := 25;
      }
    } else if c == 9 {
      var small := CheckSmallStraight(des);
      if small {
        r := 30;
      }
    } else if c == 10 {
      var large := CheckLargeStraight(des);
      if large {
        r := 40;
      }
    } else if c == 11 {
      var yams := CheckYams(des);
      if yams {
        r := 50;
      }
    } else if c == 12 {
      for i := 0 to NumDice
        invariant r == DiceSum(des[..], i)
      {
        r := r + des[i];
      }
    }
  }

  /** The dice sum of a hand lies between 1 and 6 per die. */
  lemma {:induction false} DiceSumBounds(d: seq<int>, n: nat)
    requires n <= |d| && AllFaces(d)
    ensures n <= DiceSum(d, n) <= 6 * n
  {
    if n > 0 {
      DiceSumBounds(d, n - 1);
    }
  }

  /** The group sum picks a subset of the dice, so it lies between 0 and the dice sum. */
  lemma {:induction false} GroupSumBounds(d: seq<int>, n: nat, k: int)
    requires n <= |d| && AllFaces(d)
    ensures 0 <= GroupSum(d, n, k) <= DiceSum(d, n)
  {
    if n > 0 {
      GroupSumBounds(d, n - 1, k);
    }
  }

  /** When `f` is the only face shown at least `k` times, the group sum of a prefix is f times its count there. */
  lemma {:induction false} GroupSumOneFace(d: seq<int>, n: nat, k: int, f: int)
    requires n <= |d|
    requires Count(d, f) >= k
    requires forall i :: 0 <= i < |d| && Count(d, d[i]) >= k ==> d[i] == f
    ensures GroupSum(d, n, k) == f * Count(d[..n], f)
  {
    if n > 0 {
      GroupSumOneFace(d, n - 1, k, f);
      CountPrefixStep(d, n, f);
      if d[n - 1] == f {
        MulSucc(f, Count(d[..n - 1], f));
      } else {
        assert Count(d, d[n - 1]) < k;
      }
    }
  }

  lemma MulSucc(f: int, b: int)
    ensures f * (b + 1) == f * b + f
  {
  }

  /** Extending a prefix by one die adds one to the count of that die's face only. */
  lemma CountPrefixStep(d: seq<int>, n: nat, f: int)
    requires 0 < n <= |d|
    ensures Count(d[..n], f) == Count(d[..n - 1], f) + if d[n - 1] == f then 1 else 0
  {
    assert d[..n] == d[..n - 1] + [d[n - 1]];
  }

  /**
   * The face-restricted sum: once a face shows at least k >= 3 times, the
   * score over that threshold is that face times its count, whatever the
   * other dice show.
   */
  lemma GroupSumIsFaceTimesCount(d: seq<int>, k: int, f: int)
    requires ValidHand(d) && k >= 3 && IsFace(f) && Count(d, f) >= k
    ensures GroupSum(d, NumDice, k) == f * Count(d, f)
  {
    HandHistogram(d);
    forall i | 0 <= i < |d| && Count(d, d[i]) >= k
      ensures d[i] == f
    {
      assert IsFace(d[i]);
    }
    GroupSumOneFace(d, NumDice, k, f);
    assert d[..NumDice] == d;
  }

  /** Brelan scores the dice of its face only: face times count, or 0 without a brelan. */
  lemma ThreeOfAKindScore(d: seq<int>, f: int)
    requires ValidHand(d) && IsFace(f)
    ensures Count(d, f) >= 3 ==> Score(6, d) == f * Count(d, f)
    ensures !IsThreeOfAKind(d) ==> Score(6, d) == 0
  {
    if Count(d, f) >= 3 {
      GroupSumIsFaceTimesCount(d, 3, f);
    }
  }

  /** Carré scores the dice of its face only: face times count, or 0 without a carré. */
  lemma FourOfAKindScore(d: seq<int>, f: int)
    requires ValidHand(d) && IsFace(f)
    ensures Count(d, f) >= 4 ==> Score(7, d) == f * Count(d, f)
    ensures !IsFourOfAKind(d) ==> Score(7, d) == 0
  {
    if Count(d, f) >= 4 {
      GroupSumIsFaceTimesCount(d, 4, f);
    }
  }

  /** Every category scores between 0 and 50 points; chance scores at least 5. */
  lemma ScoreRange(c: int, d: seq<int>)
    requires ValidHand(d)
    ensures 0 <= Score(c, d) <= 50
    ensures c == 12 ==> Score(c, d) >= NumDice
  {
    HandHistogram(d);
    DiceSumBounds(d, NumDice);
    GroupSumBounds(d, NumDice, 3);
    GroupSumBounds(d, NumDice, 4);
    if 0 <= c < 6 {
      var n := Count(d, c + 1);
      assert n <= 5;
      assert n * (c + 1) <= 5 * (c + 1);
    }
  }

  /** Three 4s and two 6s score 12 as a brelan: the 6s do not count. */
  lemma BrelanExample()
    ensures Score(6, [4, 4, 4, 6, 6]) == 12
  {
    var d := [4, 4, 4, 6, 6];
    assert multiset(d) == multiset{4, 4, 4, 6, 6};
    assert Count(d, 4) == 3;
    ThreeOfAKindScore(d, 4);
  }

  /** Two 2s and three 3s make a full house worth 25. */
  lemma FullHouseExample()
    ensures Score(8, [2, 2, 3, 3, 3]) == 25
  {
    var d := [2, 2, 3, 3, 3];
    assert multiset(d) == multiset{2, 2, 3, 3, 3};
    assert Count(d, 3) == 3 && Count(d, 2) == 2;
  }

  /** Five 5s are a yams, not a full house: the full house scores 0. */
  lemma YamsFullHouseExample()
    ensures Score(8, [5, 5, 5, 5, 5]) == 0
    ensures Score(11, [5, 5, 5, 5, 5]) == 50
  {
    var d := [5, 5, 5, 5, 5];
    assert multiset(d) == multiset{5, 5, 5, 5, 5};
    assert Count(d, 5) == 5;
    YamsIsNotFullHouse(d);
  }

  /** 1-2-3-4-5 is a grande suite worth 40; 1-2-2-4-5 is not. */
  lemma LargeStraightExamples()
    ensures Score(10, [1, 2, 3, 4, 5]) == 40
    ensures Score(10, [1, 2, 2, 4, 5]) == 0
  {
    var d := [1, 2, 3, 4, 5];
    assert multiset(d) == multiset{1, 2, 3, 4, 5};
    assert Run(d, 1, 5);
    var e := [1, 2, 2, 4, 5];
    assert multiset(e) == multiset{1, 2, 2, 4, 5};
    assert Count(e, 3) == 0;
  }
}
