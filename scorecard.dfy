/**
 * One player's score sheet: thirteen slots, -1 while a category is still
 * open. Covers the validity rule of entrer_combinaison, the slot write of
 * entrer_points, the totals and bonus computed by afficher_scores and the
 * winner chosen by trouver_vainqueurs.
 */
module Scorecard {
  const NumCategories: int := 13
  const NumPlayers: int := 2
  /** The marker of a slot that has not been filled yet. */
  const Empty: int := -1
  /** The upper total above which the bonus is granted. */
  const BonusThreshold: int := 62
  const BonusPoints: int := 35

  /** The category names, in slot order, that a player types to choose a slot. */
  const CategoryNames: seq<string> := [
    "Total de 1", "Total de 2", "Total de 3",
    "Total de 4", "Total de 5", "Total de 6",
    "Brelan", "Carré", "Full House",
    "Petite suite", "Grande suite", "Yams",
    "Chance"
  ]

  /** Slot `c` exists and has not been filled. */
  predicate IsOpen(card: seq<int>, c: int) {
    0 <= c < |card| && card[c] == Empty
  }

  /** A sheet: thirteen slots, each open or holding a score in 0..50. */
  predicate ValidCard(card: seq<int>) {
    |card| == NumCategories &&
    forall c :: 0 <= c < NumCategories ==> card[c] == Empty || 0 <= card[c] <= 50
  }

  predicate AllFilled(card: seq<int>) {
    forall c :: 0 <= c < |card| ==> card[c] != Empty
  }

  /** Number of filled slots among the first `n`. */
  function FilledCount(card: seq<int>, n: nat): nat
    requires n <= |card|
  {
    if n == 0 then 0 else FilledCount(card, n - 1) + if card[n - 1] != Empty then 1 else 0
  }

  /** Sum of the filled slots from `lo` up to `hi - 1`, open slots counting 0. */
  function FilledSum(card: seq<int>, lo: nat, hi: nat): int
    requires lo <= hi <= |card|
    decreases hi - lo
  {
    if hi == lo then 0 else FilledSum(card, lo, hi - 1) + if card[hi - 1] != Empty then card[hi - 1] else 0
  }

  /** Sum of the first `n` slots as stored, open slots included. */
  function RawSum(card: seq<int>, n: nat): int
    requires n <= |card|
  {
    if n == 0 then 0 else RawSum(card, n - 1) + card[n - 1]
  }

  function UpperTotal(card: seq<int>): int
    requires |card| == NumCategories
  {
    FilledSum(card, 0, 6)
  }

  function LowerTotal(card: seq<int>): int
    requires |card| == NumCategories
  {
    FilledSum(card, 6, NumCategories)
  }

  function Bonus(upper: int): int {
    if upper > BonusThreshold then BonusPoints else 0
  }

  function GrandTotal(card: seq<int>): int
    requires |card| == NumCategories
  {
    UpperTotal(card) + Bonus(UpperTotal(card)) + LowerTotal(card)
  }

  /** The initialisation in main: every slot of a new sheet is open. */
  method NewScorecard() returns (card: array<int>)
    ensures fresh(card) && card.Length == NumCategories
    ensures forall c :: 0 <= c < NumCategories ==> card[c] == Empty
  {
    card := new int[NumCategories];
    for j := 0 to NumCategories
      invariant forall c :: 0 <= c < j ==> card[c] == Empty
    {
      card[j] := Empty;
    }
  }

  /** No two categories share a name. */
  lemma NamesDistinct(i: int, j: int)
    requires 0 <= i < j < NumCategories
    ensures CategoryNames[i] != CategoryNames[j]
  {
  }

  /**
   * One pass of the loop of entrer_combinaison: looks the typed `entry` up
   * in the name table and rejects it, answering -1, when no category has
   * that name or its slot is already filled.
   */
  method SelectCategory(card: array<int>, entry: string) returns (idx: int)
    requires card.Length == NumCategories
    ensures idx != -1 ==> 0 <= idx < NumCategories && CategoryNames[idx] == entry && IsOpen(card[..], idx)
    ensures idx == -1 <==> forall c :: 0 <= c < NumCategories && CategoryNames[c] == entry ==> !IsOpen(card[..], c)
  {
    idx := -1;
    for i := 0 to NumCategories
      invariant idx == -1 <==> forall c :: 0 <= c < i ==> CategoryNames[c] != entry
      invariant idx != -1 ==> 0 <= idx < i && CategoryNames[idx] == entry
    {
      if entry == CategoryNames[i] {
        idx := i;
      }
    }
    if idx != -1 && card[idx] != Empty {
      forall c | 0 <= c < NumCategories && CategoryNames[c] == entry
        ensures c == idx
      {
        if c < idx {
          NamesDistinct(c, idx);
        } else if idx < c {
          NamesDistinct(idx, c);
        }
      }
      idx := -1;
    }
  }

  /** entrer_points: writes the points into the chosen slot and touches no other. */
  method EnterPoints(card: array<int>, c: int, points: int)
    requires 0 <= c < card.Length
    modifies card
    ensures card[..] == old(card[..])[c := points]
  {
    card[c] := points;
  }

  /**
   * The totals of afficher_scores: the filled upper slots, the bonus when
   * that sum exceeds 62, the filled lower slots, and the three together.
   */
  method ScoreTotals(card: array<int>) returns (upper: int, bonus: int, lower: int, total: int)
    requires card.Length == NumCategories
    ensures upper == UpperTotal(card[..]) && lower == LowerTotal(card[..])
    ensures bonus == (if upper > BonusThreshold then BonusPoints else 0)
    ensures total == GrandTotal(card[..])
  {
    upper, bonus, lower := 0, 0, 0;
    for i := 0 to 6
      invariant upper == FilledSum(card[..], 0, i)
    {
      if card[i] != Empty {
        upper := upper + card[i];
      }
    }
    if upper > BonusThreshold {
      bonus := BonusPoints;
    }
    for i := 6 to NumCategories
      invariant lower == FilledSum(card[..], 6, i)
    {
      if card[i] != Empty {
        lower := lower + card[i];
      }
    }
    total := upper + bonus + lower;
  }

  /**
   * trouver_vainqueurs: the index of the player whose thirteen slots, added
   * as stored and without the bonus, sum strictly highest; player 0 on a
   * tie. The running maximum starts undefined, but the first player is
   * always taken, so its starting value decides nothing.
   */
  method FindWinner(scores: array<array<int>>) returns (w: int)
    requires scores.Length == NumPlayers
    requires forall p :: 0 <= p < NumPlayers ==> scores[p].Length == NumCategories
    ensures w == 0 || w == 1
    ensures RawSum(scores[w][..], NumCategories) >= RawSum(scores[1 - w][..], NumCategories)
    ensures w == 1 <==> RawSum(scores[1][..], NumCategories) > RawSum(scores[0][..], NumCategories)
  {
    w := -1;
    var totalMax: int :| true;
    for i := 0 to NumPlayers
      invariant i == 0 ==> w == -1
      invariant i > 0 ==> 0 <= w < i && totalMax == RawSum(scores[w][..], NumCategories)
      invariant forall p :: 0 <= p < i ==> RawSum(scores[p][..], NumCategories) <= totalMax
      invariant forall p :: 0 <= p < w ==> RawSum(scores[p][..], NumCategories) < totalMax
    {
      var totalTemp := 0;
      for j := 0 to NumCategories
        invariant totalTemp == RawSum(scores[i][..], j)
      {
        totalTemp := totalTemp + scores[i][j];
      }
      if totalTemp > totalMax || w == -1 {
        w := i;
        totalMax := totalTemp;
      }
    }
  }

  /** Filling an open slot with a score of at least 0 adds exactly one filled slot. */
  lemma {:induction false} FillOpenSlot(card: seq<int>, c: int, points: int, n: nat)
    requires IsOpen(card, c) && points >= 0 && n <= |card|
    ensures FilledCount(card[c := points], n) == FilledCount(card, n) + if c < n then 1 else 0
  {
    if n > 0 {
      FillOpenSlot(card, c, points, n - 1);
    }
  }

  /** Fewer than n filled slots among the first n leaves one of them open. */
  lemma {:induction false} OpenSlotExists(card: seq<int>, n: nat)
    requires n <= |card| && FilledCount(card, n) < n
    ensures exists c :: 0 <= c < n && IsOpen(card, c)
  {
    if card[n - 1] != Empty {
      OpenSlotExists(card, n - 1);
    } else {
      assert IsOpen(card, n - 1);
    }
  }

  /** A sheet with all of its slots counted as filled has no open slot. */
  lemma {:induction false} FullCountIsAllFilled(card: seq<int>, n: nat)
    requires n <= |card| && FilledCount(card, n) == n
    ensures forall c :: 0 <= c < n ==> card[c] != Empty
  {
    if n > 0 {
      assert card[n - 1] != Empty by {
        FilledCountBound(card, n - 1);
      }
      FullCountIsAllFilled(card, n - 1);
    }
  }

  lemma {:induction false} FilledCountBound(card: seq<int>, n: nat)
    requires n <= |card|
    ensures FilledCount(card, n) <= n
  {
    if n > 0 {
      FilledCountBound(card, n - 1);
    }
  }

  /** The upper and lower totals partition the thirteen slots. */
  lemma {:induction false} FilledSumSplit(card: seq<int>, mid: nat, hi: nat)
    requires mid <= hi <= |card|
    ensures FilledSum(card, 0, mid) + FilledSum(card, mid, hi) == FilledSum(card, 0, hi)
    decreases hi
  {
    if hi > mid {
      FilledSumSplit(card, mid, hi - 1);
    }
  }

  /** On a sheet with no open slot, the filled sum is the raw sum. */
  lemma {:induction false} FilledSumOfFullCard(card: seq<int>, n: nat)
    requires n <= |card| && forall c :: 0 <= c < n ==> card[c] != Empty
    ensures FilledSum(card, 0, n) == RawSum(card, n)
  {
    if n > 0 {
      FilledSumOfFullCard(card, n - 1);
    }
  }

  /**
   * On a complete sheet, the sum trouver_vainqueurs ranks by is the upper
   * plus the lower total, that is the grand total less the bonus.
   */
  lemma FullCardTotals(card: seq<int>)
    requires |card| == NumCategories && AllFilled(card)
    ensures UpperTotal(card) + LowerTotal(card) == RawSum(card, NumCategories)
    ensures GrandTotal(card) == RawSum(card, NumCategories) + Bonus(UpperTotal(card))
  {
    FilledSumSplit(card, 6, NumCategories);
    FilledSumOfFullCard(card, NumCategories);
  }

  /** The bonus is 35 exactly when the upper total is above 62: 62 earns nothing, 63 earns it. */
  lemma BonusLaw(upper: int)
    ensures Bonus(upper) == BonusPoints <==> upper > BonusThreshold
    ensures Bonus(upper) == 0 <==> upper <= BonusThreshold
    ensures Bonus(62) == 0 && Bonus(63) == 35
  {
  }

  /**
   * The ranking ignores the bonus: here player 1 has the larger raw sum, so
   * FindWinner's contract picks player 1, although player 0 has the larger
   * grand total.
   */
  lemma RawRankingIgnoresBonus()
    ensures var first := [3, 6, 9, 12, 15, 18, 0, 0, 0, 0, 0, 0, 0];
            var second := [0, 0, 0, 0, 0, 0, 0, 0, 0, 0, 0, 50, 30];
            RawSum(second, NumCategories) > RawSum(first, NumCategories) &&
            GrandTotal(first) > GrandTotal(second)
  {
    var first := [3, 6, 9, 12, 15, 18, 0, 0, 0, 0, 0, 0, 0];
    var second := [0, 0, 0, 0, 0, 0, 0, 0, 0, 0, 0, 50, 30];
    assert RawSum(first, 6) == 63;
    assert RawSum(first, 13) == 63;
    assert RawSum(second, 6) == 0;
    assert RawSum(second, 11) == 0;
    assert RawSum(second, 13) == 80;
    FullCardTotals(first);
    FullCardTotals(second);
    assert UpperTotal(first) == 63;
    assert UpperTotal(second) == 0;
  }
}
