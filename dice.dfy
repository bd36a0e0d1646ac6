/**
 * The five dice of a hand: the face histogram (compter_des), the sorted copy
 * used by the straights (trier_des) and the roll (lancer_des).
 */
module Dice {
  const NumDice: int := 5
  const NumFaces: int := 6

  predicate IsFace(v: int) {
    1 <= v <= NumFaces
  }

  predicate AllFaces(d: seq<int>) {
    forall i :: 0 <= i < |d| ==> IsFace(d[i])
  }

  /** A hand: exactly five dice, each showing a face 1..6. */
  predicate ValidHand(d: seq<int>) {
    |d| == NumDice && AllFaces(d)
  }

  /** Number of dice of `d` that show face `f`. */
  function Count(d: seq<int>, f: int): nat {
    multiset(d)[f]
  }

  /** The six histogram entries added together. */
  function CountSum(d: seq<int>): int {
    Count(d, 1) + Count(d, 2) + Count(d, 3) + Count(d, 4) + Count(d, 5) + Count(d, 6)
  }

  predicate Sorted(s: seq<int>) {
    forall i, j :: 0 <= i < j < |s| ==> s[i] <= s[j]
  }

  /** The face a die takes from one result `r` of the random generator. */
  function RollValue(r: nat): (v: int)
    ensures IsFace(v)
  {
    r % 6 + 1
  }

  /** Every die shows one of the six faces, so the histogram adds up to the number of dice. */
  lemma {:induction false} CountSumIsLength(d: seq<int>)
    requires AllFaces(d)
    ensures CountSum(d) == |d|
  {
    if d != [] {
      var init, last := d[..|d| - 1], d[|d| - 1];
      assert d == init + [last];
      assert multiset(d) == multiset(init) + multiset{last};
      assert forall f :: Count(d, f) == Count(init, f) + (if f == last then 1 else 0);
      assert AllFaces(init);
      CountSumIsLength(init);
    }
  }

  /** For a hand: every count lies in 0..5 and the six counts sum to 5. */
  lemma HandHistogram(d: seq<int>)
    requires ValidHand(d)
    ensures CountSum(d) == NumDice
    ensures forall f :: 1 <= f <= NumFaces ==> 0 <= Count(d, f) <= NumDice
    ensures forall f :: !IsFace(f) ==> Count(d, f) == 0
  {
    CountSumIsLength(d);
    forall f | !IsFace(f) ensures Count(d, f) == 0 {
      assert f !in d;
    }
  }

  /** Two dice showing the same face make that face's count at least 2. */
  lemma TwoDiceSameFace(s: seq<int>, j: int, k: int)
    requires 0 <= j < k < |s| && s[j] == s[k]
    ensures Count(s, s[j]) >= 2
  {
    assert s == s[..j] + [s[j]] + s[j + 1..k] + [s[k]] + s[k + 1..];
    assert multiset(s) == multiset(s[..j]) + multiset{s[j]} + multiset(s[j + 1..k])
                          + multiset{s[k]} + multiset(s[k + 1..]);
  }

  /**
   * compter_des: zeroes the six counters, then counts every die into the
   * counter of its face; occ[k] ends as the number of dice showing k + 1.
   */
  method CountDice(des: array<int>, occ: array<int>)
    requires ValidHand(des[..])
    requires occ.Length == NumFaces
    modifies occ
    ensures forall k :: 0 <= k < NumFaces ==> occ[k] == Count(des[..], k + 1)
  {
    for i := 0 to NumFaces
      invariant forall k :: 0 <= k < i ==> occ[k] == 0
    {
      occ[i] := 0;
    }
    assert occ != des;
    for i := 0 to NumDice
      invariant forall k :: 0 <= k < NumFaces ==> occ[k] == Count(des[..i], k + 1)
    {
      assert des[..i + 1] == des[..i] + [des[i]];
      occ[des[i] - 1] := occ[des[i] - 1] + 1;
    }
    assert des[..NumDice] == des[..];
  }

  /** The dice from position `from` on are in order and none is below an earlier die. */
  predicate SettledFrom(s: seq<int>, from: int) {
    forall k, l :: 0 <= k < l < |s| && from <= l ==> s[k] <= s[l]
  }

  /**
   * trier_des: copies the dice into `res` and bubble-sorts the copy in place;
   * the input array is left as it was.
   */
  method SortDice(des: array<int>, res: array<int>)
    requires des.Length == NumDice && res.Length == NumDice && des != res
    modifies res
    ensures Sorted(res[..])
    ensures multiset(res[..]) == multiset(des[..])
    ensures unchanged(des)
  {
    for i := 0 to NumDice
      invariant forall k :: 0 <= k < i ==> res[k] == des[k]
    {
      res[i] := des[i];
    }
    assert res[..] == des[..];
    for i := 0 to NumDice
      invariant multiset(res[..]) == multiset(des[..])
      invariant SettledFrom(res[..], NumDice - i)
    {
      BubblePass(res, i);
    }
  }

  /**
   * One pass of the inner loop of trier_des: compares each adjacent pair from
   * the left and swaps it when out of order, which carries the largest of the
   * unsettled dice to position NumDice - i - 1.
   */
  method BubblePass(res: array<int>, i: int)
    requires res.Length == NumDice && 0 <= i < NumDice
    requires SettledFrom(res[..], NumDice - i)
    modifies res
    ensures multiset(res[..]) == old(multiset(res[..]))
    ensures SettledFrom(res[..], NumDice - i - 1)
  {
    for j := 1 to NumDice
      invariant multiset(res[..]) == old(multiset(res[..]))
      invariant PassInvariant(res[..], i, j)
    {
      ghost var before := res[..];
      if res[j - 1] > res[j] {
        SwapAdjacent(res, j);
      }
      PassStep(before, res[..], i, j);
    }
    SettleOneMore(res[..], NumDice - i);
  }

  /**
   * What a pass keeps after comparing the pairs up to position j - 1: the
   * settled tail stays settled, res[j - 1] is the largest die so far, and
   * once the pass has reached the settled tail the die before it bounds
   * every earlier die.
   */
  predicate PassInvariant(s: seq<int>, i: int, j: int)
    requires |s| == NumDice && 0 <= i < NumDice && 1 <= j <= NumDice
  {
    SettledFrom(s, NumDice - i) &&
    (forall k :: 0 <= k < j ==> s[k] <= s[j - 1]) &&
    (NumDice - i <= j ==> forall k :: 0 <= k < NumDice - i - 1 ==> s[k] <= s[NumDice - i - 1])
  }

  /** One compare-and-swap of a pass advances the pass invariant by one position. */
  lemma PassStep(s: seq<int>, t: seq<int>, i: int, j: int)
    requires |s| == NumDice && 0 <= i < NumDice && 1 <= j < NumDice
    requires PassInvariant(s, i, j)
    requires t == if s[j - 1] > s[j] then s[j - 1 := s[j]][j := s[j - 1]] else s
    ensures PassInvariant(t, i, j + 1)
  {
  }

  /** SettledFrom extends one position down once that position bounds everything before it. */
  lemma SettleOneMore(s: seq<int>, from: int)
    requires 0 < from <= |s|
    requires SettledFrom(s, from)
    requires forall k :: 0 <= k < from - 1 ==> s[k] <= s[from - 1]
    ensures SettledFrom(s, from - 1)
  {
  }

  /** The exchange of two neighbouring dice through `temp` in trier_des. */
  method SwapAdjacent(res: array<int>, j: int)
    requires 0 < j < res.Length
    modifies res
    ensures res[..] == old(res[..])[j - 1 := old(res[j])][j := old(res[j - 1])]
    ensures multiset(res[..]) == old(multiset(res[..]))
  {
    var temp := res[j - 1];
    res[j - 1] := res[j];
    res[j] := temp;
  }

  /**
   * lancer_des: marks all five dice -1, then gives the first `count` of them
   * the face drawn from the successive generator results `rolls`.
   */
  method RollDice(count: int, des: array<int>, rolls: seq<nat>)
    requires des.Length == NumDice && count <= NumDice && |rolls| >= count
    modifies des
    ensures forall i :: 0 <= i < NumDice ==> des[i] == if i < count then RollValue(rolls[i]) else -1
  {
    for i := 0 to NumDice
      invariant forall k :: 0 <= k < i ==> des[k] == -1
    {
      des[i] := -1;
    }
    var i := 0;
    while i < count
      invariant 0 <= i <= if count < 0 then 0 else count
      invariant forall k :: 0 <= k < NumDice ==> des[k] == if k < i then RollValue(rolls[k]) else -1
    {
      des[i] := RollValue(rolls[i]);
      i := i + 1;
    }
  }
}
