/**
 * The categories a hand can be scored in (combinaisons_possibles) and the
 * sub-list of them whose slot is still open on a sheet (the filter of
 * combinaisons_disponibles).
 */
module Categories {
  import opened Dice
  import opened Combinations
  import opened Scoring
  import opened Scorecard

  /**
   * The hand achieves category `c`: face c + 1 shows for 0..5, the
   * combination holds for 6..11, and chance is always achieved.
   */
  predicate Met(c: int, d: seq<int>) {
    if 0 <= c < 6 then Count(d, c + 1) >= 1
    else if c == 6 then IsThreeOfAKind(d)
    else if c == 7 then IsFourOfAKind(d)
    else if c == 8 then IsFullHouse(d)
    else if c == 9 then IsSmallStraight(d)
    else if c == 10 then IsLargeStraight(d)
    else if c == 11 then IsYams(d)
    else c == 12
  }

  /** The achieved categories among lo..hi-1, in ascending order. */
  function Listed(d: seq<int>, lo: int, hi: int): seq<int>
    requires lo <= hi
    decreases hi - lo
  {
    if hi == lo then [] else Listed(d, lo, hi - 1) + if Met(hi - 1, d) then [hi - 1] else []
  }

  /** The list combinaisons_possibles builds: chance, then the combinations 6..11, then the faces 0..5. */
  function Achievable(d: seq<int>): seq<int> {
    [12] + Listed(d, 6, 12) + Listed(d, 0, 6)
  }

  /** The sub-list of `cats`, in their order, whose slot on `card` is open. */
  function Available(cats: seq<int>, card: seq<int>): seq<int>
    decreases |cats|
  {
    if cats == [] then []
    else Available(cats[..|cats| - 1], card) + if IsOpen(card, cats[|cats| - 1]) then [cats[|cats| - 1]] else []
  }

  /**
   * One `if` of combinaisons_possibles: when `b` holds, writes `v` at
   * position `n` of the out-array and advances the counter.
   */
  method PushIf(combs: array<int>, n: int, b: bool, v: int) returns (m: int)
    requires 0 <= n < combs.Length
    modifies combs
    ensures m == n + if b then 1 else 0
    ensures combs[..m] == old(combs[..n]) + if b then [v] else []
  {
    m := n;
    if b {
      combs[n] := v;
      m := n + 1;
    }
  }

  /**
   * combinaisons_possibles: fills a 13-entry array with 12 first, then each
   * combination 6..11 the hand makes, then each face index whose counter is
   * non-zero; `n` is the number of entries written.
   */
  method PossibleCombinations(des: array<int>) returns (combs: array<int>, n: int)
    requires ValidHand(des[..])
    ensures combs.Length == NumCategories && 0 <= n <= NumCategories
    ensures combs[..n] == Achievable(des[..])
  {
    ghost var d := des[..];
    combs := new int[NumCategories];
    n := 0;
    combs[n] := 12;
    n := 1;
    assert combs[..n] == [12];
    n := AppendCombinations(des, combs, n);
    assert des[..] == d && combs[..n] == [12] + Listed(d, 6, 12);
    n := AppendFaces(des, combs, n);
    assert combs[..n] == [12] + Listed(d, 6, 12) + Listed(d, 0, 6);
    ListedLength(d, 0, 6);
  }

  /**
   * The six `if`s of combinaisons_possibles: appends 6..11, in that order,
   * for each combination the hand makes.
   */
  method AppendCombinations(des: array<int>, combs: array<int>, n: int) returns (m: int)
    requires ValidHand(des[..]) && des != combs
    requires combs.Length == NumCategories && n == 1
    modifies combs
    ensures m == n + |Listed(des[..], 6, 12)| && m <= 7
    ensures combs[..m] == old(combs[..n]) + Listed(des[..], 6, 12)
  {
    ghost var d := des[..];
    ghost var prefix := combs[..n];
    m := AppendMultiples(des, combs, n);
    m := AppendSequences(des, combs, m);
    ListedSplit(d, 6, 9, 12);
    assert combs[..m] == prefix + Listed(d, 6, 9) + Listed(d, 9, 12);
    ListedLength(d, 6, 12);
  }

  /** The first three `if`s: brelan (6), carré (7) and full house (8). */
  method AppendMultiples(des: array<int>, combs: array<int>, n: int) returns (m: int)
    requires ValidHand(des[..]) && des != combs
    requires combs.Length == NumCategories && 0 <= n <= 4
    modifies combs
    ensures n <= m <= n + 3
    ensures combs[..m] == old(combs[..n]) + Listed(des[..], 6, 9)
  {
    ghost var d := des[..];
    ghost var prefix := combs[..n];
    var three := CheckThreeOfAKind(des);
    m := PushIf(combs, n, three, 6);
    ListedStep(d, 6, 6, three);
    assert combs[..m] == prefix + Listed(d, 6, 7);
    var four := CheckFourOfAKind(des);
    m := PushIf(combs, m, four, 7);
    ListedStep(d, 6, 7, four);
    assert combs[..m] == prefix + Listed(d, 6, 8);
    var fullHouse := CheckFullHouse(des);
    m := PushIf(combs, m, fullHouse, 8);
    ListedStep(d, 6, 8, fullHouse);
  }

  /** The last three `if`s: petite suite (9), grande suite (10) and yams (11). */
  method AppendSequences(des: array<int>, combs: array<int>, n: int) returns (m: int)
    requires ValidHand(des[..]) && des != combs
    requires combs.Length == NumCategories && 0 <= n <= 4
    modifies combs
    ensures n <= m <= n + 3
    ensures combs[..m] == old(combs[..n]) + Listed(des[..], 9, 12)
  {
    ghost var d := des[..];
    ghost var prefix := combs[..n];
    var small := CheckSmallStraight(des);
    m := PushIf(combs, n, small, 9);
    ListedStep(d, 9, 9, small);
    assert combs[..m] == prefix + Listed(d, 9, 10);
    var large := CheckLargeStraight(des);
    m := PushIf(combs, m, large, 10);
    ListedStep(d, 9, 10, large);
    assert combs[..m] == prefix + Listed(d, 9, 11);
    var yams := CheckYams(des);
    m := PushIf(combs, m, yams, 11);
    ListedStep(d, 9, 11, yams);
  }

  /**
   * The last loop of combinaisons_possibles: counts the dice, then appends
   * each face index 0..5 whose counter is non-zero.
   */
  method AppendFaces(des: array<int>, combs: array<int>, n: int) returns (m: int)
    requires ValidHand(des[..]) && des != combs
    requires combs.Length == NumCategories && 0 <= n <= 7
    modifies combs
    ensures m == n + |Listed(des[..], 0, 6)|
    ensures combs[..m] == old(combs[..n]) + Listed(des[..], 0, 6)
  {
    ghost var d := des[..];
    ghost var prefix := combs[..n];
    var occ := new int[NumFaces];
    CountDice(des, occ);
    m := n;
    assert prefix + Listed(d, 0, 0) == prefix;
    for i := 0 to NumFaces
      invariant m == n + |Listed(d, 0, i)| && m <= n + i
      invariant combs[..m] == prefix + Listed(d, 0, i)
      invariant forall k :: 0 <= k < NumFaces ==> occ[k] == Count(d, k + 1)
    {
      ListedLength(d, 0, i);
      ListedStep(d, 0, i, occ[i] >= 1);
      m := PushIf(combs, m, occ[i] >= 1, i);
      assert combs[..m] == prefix + Listed(d, 0, i + 1);
    }
  }

  /** The list of lo..hi-1 is the list of lo..mid-1 followed by that of mid..hi-1. */
  lemma {:induction false} ListedSplit(d: seq<int>, lo: int, mid: int, hi: int)
    requires lo <= mid <= hi
    ensures Listed(d, lo, hi) == Listed(d, lo, mid) + Listed(d, mid, hi)
    decreases hi - mid
  {
    if hi > mid {
      ListedSplit(d, lo, mid, hi - 1);
    } else {
      assert Listed(d, lo, mid) + [] == Listed(d, lo, mid);
    }
  }

  /** One more index: the list grows by `hi` exactly when the category is achieved. */
  lemma ListedStep(d: seq<int>, lo: int, hi: int, b: bool)
    requires lo <= hi && b == Met(hi, d)
    ensures Listed(d, lo, hi + 1) == Listed(d, lo, hi) + if b then [hi] else []
  {
  }

  lemma {:induction false} ListedLength(d: seq<int>, lo: int, hi: int)
    requires lo <= hi
    ensures |Listed(d, lo, hi)| <= hi - lo
    decreases hi - lo
  {
    if hi > lo {
      ListedLength(d, lo, hi - 1);
    }
  }

  /**
   * The filtering loops of combinaisons_disponibles: for each listed
   * category, the inner scan over the thirteen slot indices keeps it when
   * its slot is still -1.
   */
  method AvailableCombinations(des: array<int>, card: array<int>) returns (dispo: array<int>, m: int)
    requires ValidHand(des[..]) && card.Length == NumCategories
    ensures dispo.Length == NumCategories && 0 <= m <= NumCategories
    ensures dispo[..m] == Available(Achievable(des[..]), card[..])
  {
    var combs, n := PossibleCombinations(des);
    AchievableShape(des[..]);
    assert forall i :: 0 <= i < n ==> combs[i] == combs[..n][i];
    dispo, m := FilterOpen(combs, n, card);
  }

  /** The nested loops of the filter, over the first `n` entries of `combs`. */
  method FilterOpen(combs: array<int>, n: int, card: array<int>) returns (dispo: array<int>, m: int)
    requires 0 <= n <= combs.Length == NumCategories && card.Length == NumCategories
    requires forall i :: 0 <= i < n ==> 0 <= combs[i] < NumCategories
    ensures dispo.Length == NumCategories && 0 <= m <= n
    ensures dispo[..m] == Available(combs[..n], card[..])
  {
    dispo := new int[NumCategories];
    m := 0;
    for i := 0 to n
      invariant m <= i
      invariant dispo[..m] == Available(combs[..i], card[..])
    {
      ghost var before := dispo[..m];
      var c := combs[i];
      for j := 0 to NumCategories
        invariant m <= i + 1
        invariant dispo[..m] == before + if c < j && card[c] == Empty then [c] else []
      {
        if c == j {
          if card[j] == Empty {
            dispo[m] := j;
            m := m + 1;
          }
        }
      }
      AvailableStep(combs[..i], c, card[..]);
      assert combs[..i + 1] == combs[..i] + [c];
    }
  }

  /** Filtering one more entry appends it exactly when its slot is open. */
  lemma AvailableStep(cats: seq<int>, c: int, card: seq<int>)
    ensures Available(cats + [c], card) == Available(cats, card) + if IsOpen(card, c) then [c] else []
  {
    assert (cats + [c])[..|cats|] == cats;
  }

  /** The listed categories lie in lo..hi-1 and ascend strictly. */
  lemma {:induction false} ListedOrder(d: seq<int>, lo: int, hi: int)
    requires lo <= hi
    ensures forall i :: 0 <= i < |Listed(d, lo, hi)| ==> lo <= Listed(d, lo, hi)[i] < hi
    ensures forall i, j :: 0 <= i < j < |Listed(d, lo, hi)| ==> Listed(d, lo, hi)[i] < Listed(d, lo, hi)[j]
    decreases hi - lo
  {
    if hi > lo {
      ListedOrder(d, lo, hi - 1);
    }
  }

  /** The listed categories are exactly the achieved ones among lo..hi-1. */
  lemma {:induction false} ListedMembers(d: seq<int>, lo: int, hi: int)
    requires lo <= hi
    ensures forall c :: c in Listed(d, lo, hi) <==> lo <= c < hi && Met(c, d)
    decreases hi - lo
  {
    if hi > lo {
      ListedMembers(d, lo, hi - 1);
    }
  }

  /**
   * The shape of the list of combinaisons_possibles: chance first, between
   * 1 and 13 entries, all in 0..12 and distinct, and the combinations 6..11
   * in ascending order before the faces 0..5 in ascending order.
   */
  lemma AchievableShape(d: seq<int>)
    ensures Achievable(d)[0] == 12
    ensures 1 <= |Achievable(d)| <= NumCategories
    ensures forall i :: 0 <= i < |Achievable(d)| ==> 0 <= Achievable(d)[i] < NumCategories
    ensures forall i, j :: 0 <= i < j < |Achievable(d)| ==> Achievable(d)[i] != Achievable(d)[j]
    ensures forall i, j :: 1 <= i < j < |Achievable(d)| && Achievable(d)[j] >= 6 ==>
              6 <= Achievable(d)[i] < Achievable(d)[j]
    ensures forall i, j :: 1 <= i < j < |Achievable(d)| && Achievable(d)[i] < 6 ==>
              Achievable(d)[i] < Achievable(d)[j] < 6
  {
    var k := |Listed(d, 6, 12)|;
    AchievableBlocks(d);
    AchievableOrder(d);
    assert forall i, j :: 0 <= i < j < |Achievable(d)| && i <= k < j ==> Achievable(d)[i] != Achievable(d)[j];
  }

  /** Chance at 0, the combinations at 1..k, all in 6..11, the faces after them, all in 0..5. */
  lemma AchievableBlocks(d: seq<int>)
    ensures Achievable(d)[0] == 12
    ensures 1 <= |Achievable(d)| <= NumCategories
    ensures forall i :: 1 <= i <= |Listed(d, 6, 12)| ==> 6 <= Achievable(d)[i] < 12
    ensures forall i :: 1 + |Listed(d, 6, 12)| <= i < |Achievable(d)| ==> 0 <= Achievable(d)[i] < 6
  {
    AchievableParts(d);
    ListedLength(d, 6, 12);
    ListedLength(d, 0, 6);
    ListedOrder(d, 6, 12);
    ListedOrder(d, 0, 6);
  }

  /** Within each block the list ascends, and no combination follows a face. */
  lemma AchievableOrder(d: seq<int>)
    ensures forall i, j :: 1 <= i < j < |Achievable(d)| && Achievable(d)[j] >= 6 ==>
              6 <= Achievable(d)[i] < Achievable(d)[j]
    ensures forall i, j :: 1 <= i < j < |Achievable(d)| && Achievable(d)[i] < 6 ==>
              Achievable(d)[i] < Achievable(d)[j] < 6
  {
    var a := Achievable(d);
    var specials, faces := Listed(d, 6, 12), Listed(d, 0, 6);
    var k := |specials|;
    AchievableParts(d);
    AchievableBlocks(d);
    ListedOrder(d, 6, 12);
    ListedOrder(d, 0, 6);
    forall i, j | 1 <= i < j < |a|
      ensures a[j] >= 6 ==> 6 <= a[i] < a[j]
      ensures a[i] < 6 ==> a[i] < a[j] < 6
    {
      if j <= k {
        assert a[i] == specials[i - 1] && a[j] == specials[j - 1];
      } else if k < i {
        assert a[i] == faces[i - 1 - k] && a[j] == faces[j - 1 - k];
      }
    }
  }

  /** combinaisons_possibles lists exactly the achieved categories. */
  lemma AchievableMembers(d: seq<int>)
    ensures forall c :: c in Achievable(d) <==> 0 <= c < NumCategories && Met(c, d)
  {
    var specials, faces := Listed(d, 6, 12), Listed(d, 0, 6);
    assert Achievable(d) == [12] + specials + faces;
    ListedMembers(d, 6, 12);
    ListedMembers(d, 0, 6);
  }

  /** Where the two parts of the list sit: the combinations at 1..k, the faces after them. */
  lemma AchievableParts(d: seq<int>)
    ensures |Achievable(d)| == 1 + |Listed(d, 6, 12)| + |Listed(d, 0, 6)|
    ensures forall i :: 1 <= i <= |Listed(d, 6, 12)| ==> Achievable(d)[i] == Listed(d, 6, 12)[i - 1]
    ensures forall i :: 1 + |Listed(d, 6, 12)| <= i < |Achievable(d)| ==>
              Achievable(d)[i] == Listed(d, 0, 6)[i - 1 - |Listed(d, 6, 12)|]
  {
  }

  /** A category is achieved exactly when the hand scores points in it. */
  lemma MetIffScores(c: int, d: seq<int>)
    requires ValidHand(d) && 0 <= c < NumCategories
    ensures Met(c, d) <==> Score(c, d) > 0
  {
    if 0 <= c < 6 {
      var n := Count(d, c + 1);
      assert n >= 1 ==> n * (c + 1) >= 1;
    } else if c == 6 && IsThreeOfAKind(d) {
      var f :| 1 <= f <= NumFaces && Count(d, f) >= 3;
      ThreeOfAKindScore(d, f);
      assert f * Count(d, f) >= 3;
    } else if c == 7 && IsFourOfAKind(d) {
      var f :| 1 <= f <= NumFaces && Count(d, f) >= 4;
      FourOfAKindScore(d, f);
      assert f * Count(d, f) >= 4;
    } else if c == 12 {
      DiceSumBounds(d, NumDice);
    }
  }

  /** combinaisons_possibles lists exactly the categories in which the hand scores points. */
  lemma AchievableIsScoring(d: seq<int>)
    requires ValidHand(d)
    ensures forall c :: c in Achievable(d) <==> 0 <= c < NumCategories && Score(c, d) > 0
  {
    AchievableMembers(d);
    forall c | 0 <= c < NumCategories
      ensures Met(c, d) <==> Score(c, d) > 0
    {
      MetIffScores(c, d);
    }
  }

  /** The filter keeps exactly the open entries, never lengthens the list and keeps distinct entries distinct. */
  lemma {:induction false} AvailableProps(cats: seq<int>, card: seq<int>)
    ensures forall x :: x in Available(cats, card) <==> x in cats && IsOpen(card, x)
    ensures |Available(cats, card)| <= |cats|
    ensures (forall i, j :: 0 <= i < j < |cats| ==> cats[i] != cats[j]) ==>
              forall i, j :: 0 <= i < j < |Available(cats, card)| ==> Available(cats, card)[i] != Available(cats, card)[j]
    decreases |cats|
  {
    if cats != [] {
      var init, last := cats[..|cats| - 1], cats[|cats| - 1];
      assert cats == init + [last];
      AvailableProps(init, card);
    }
  }

  /** Filtering is order-preserving: the filter of a concatenation is the concatenation of the filters. */
  lemma {:induction false} AvailableAppend(a: seq<int>, b: seq<int>, card: seq<int>)
    ensures Available(a + b, card) == Available(a, card) + Available(b, card)
    decreases |b|
  {
    if b == [] {
      assert a + b == a;
    } else {
      var init := b[..|b| - 1];
      assert (a + b)[..|a + b| - 1] == a + init;
      assert (a + b)[|a + b| - 1] == b[|b| - 1];
      AvailableAppend(a, init, card);
    }
  }

  /** On a sheet with every slot open the filter removes nothing; on a full sheet it removes everything. */
  lemma {:induction false} AvailableExtremes(cats: seq<int>, card: seq<int>)
    requires |card| == NumCategories
    requires forall i :: 0 <= i < |cats| ==> 0 <= cats[i] < NumCategories
    ensures (forall c :: 0 <= c < NumCategories ==> card[c] == Empty) ==> Available(cats, card) == cats
    ensures AllFilled(card) ==> Available(cats, card) == []
    decreases |cats|
  {
    if cats != [] {
      AvailableExtremes(cats[..|cats| - 1], card);
    }
  }

  /** Chance is listed first, so the available list is empty only once chance has been played. */
  lemma ChanceAvailable(d: seq<int>, card: seq<int>)
    requires |card| == NumCategories && IsOpen(card, 12)
    ensures 12 in Available(Achievable(d), card)
  {
    AchievableMembers(d);
    AvailableProps(Achievable(d), card);
  }
}
