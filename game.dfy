/**
 * The turn and the game as main plays them: the initial roll, up to three
 * rerolls that replace the chosen dice, one category committed per turn,
 * thirteen rounds of two players, and the winner.
 */
module Game {
  import opened Dice
  import opened Scoring
  import opened Scorecard
  import opened Categories

  /** compteur_essais starts at 3: at most three rerolls follow the initial roll. */
  const MaxRerolls: int := 3
  const NumRounds: int := 13

  /**
   * One reroll the player asks for: the die positions entered (0..4, at
   * most five of them, which is what entrer_suite returns before its -1
   * padding) and the generator results drawn for the new dice.
   */
  datatype Reroll = Reroll(positions: seq<int>, rolls: seq<nat>)

  /**
   * The inputs of one turn: the generator results of the initial roll and
   * the rerolls the player asks for, one per "oui" answer; the player
   * answers "non" once they run out.
   */
  datatype Turn = Turn(initial: seq<nat>, rerolls: seq<Reroll>)

  predicate ValidReroll(r: Reroll) {
    |r.positions| <= NumDice && |r.rolls| >= |r.positions| &&
    forall j :: 0 <= j < |r.positions| ==> 0 <= r.positions[j] < NumDice
  }

  predicate ValidTurn(t: Turn) {
    |t.initial| >= NumDice && forall k :: 0 <= k < |t.rerolls| ==> ValidReroll(t.rerolls[k])
  }

  function Min(a: int, b: int): int {
    if a <= b then a else b
  }

  /** The hand of the initial roll lancer_des(5, des). */
  function InitialHand(rolls: seq<nat>): (d: seq<int>)
    requires |rolls| >= NumDice
    ensures ValidHand(d)
    ensures forall i :: 0 <= i < NumDice ==> d[i] == RollValue(rolls[i])
  {
    [RollValue(rolls[0]), RollValue(rolls[1]), RollValue(rolls[2]), RollValue(rolls[3]), RollValue(rolls[4])]
  }

  /** The dice after `des[ps[j]] = RollValue(rolls[j])` for j = 0, 1, ... in turn. */
  function Substitute(d: seq<int>, ps: seq<int>, rolls: seq<nat>): (r: seq<int>)
    requires |rolls| >= |ps| && forall j :: 0 <= j < |ps| ==> 0 <= ps[j] < |d|
    ensures |r| == |d|
    decreases |ps|
  {
    if ps == [] then d
    else Substitute(d, ps[..|ps| - 1], rolls)[ps[|ps| - 1] := RollValue(rolls[|ps| - 1])]
  }

  /** The dice after the given rerolls, applied in order. */
  function ApplyRerolls(d: seq<int>, rs: seq<Reroll>): (r: seq<int>)
    requires |d| == NumDice && forall k :: 0 <= k < |rs| ==> ValidReroll(rs[k])
    ensures |r| == NumDice
    decreases |rs|
  {
    if rs == [] then d
    else
      var last := rs[|rs| - 1];
      assert ValidReroll(last);
      Substitute(ApplyRerolls(d, rs[..|rs| - 1]), last.positions, last.rolls)
  }

  /**
   * The dice a turn ends with: the initial roll, then the rerolls the
   * attempt counter lets through. They always form a hand.
   */
  function TurnDice(t: Turn): (d: seq<int>)
    requires ValidTurn(t)
    ensures ValidHand(d)
  {
    var applied := t.rerolls[..Min(|t.rerolls|, MaxRerolls)];
    ApplyRerollsFaces(InitialHand(t.initial), applied);
    ApplyRerolls(InitialHand(t.initial), applied)
  }

  /** Thirteen rounds of turns for two players, each turn well formed. */
  predicate ValidTurns(turns: seq<Turn>) {
    |turns| == NumRounds * NumPlayers && forall k :: 0 <= k < |turns| ==> ValidTurn(turns[k])
  }

  /** The hand player `p` ends round `r` with: the dice of their turn turns[2 * r + p]. */
  function HandOf(turns: seq<Turn>, p: int, r: int): (d: seq<int>)
    requires ValidTurns(turns) && 0 <= p < NumPlayers && 0 <= r < NumRounds
    ensures ValidHand(d)
  {
    TurnDice(turns[2 * r + p])
  }

  /** `hands` lists, round by round, the hands player `p` ended the first |hands| rounds with. */
  predicate HandsOf(hands: seq<seq<int>>, turns: seq<Turn>, p: int)
    requires ValidTurns(turns) && 0 <= p < NumPlayers
  {
    |hands| <= NumRounds &&
    forall r {:trigger HandOf(turns, p, r)} :: 0 <= r < |hands| ==> hands[r] == HandOf(turns, p, r)
  }

  /**
   * The sheet after the rounds whose chosen categories are `cats` and whose
   * final hands are `hands`: a blank sheet with, round by round, the chosen
   * slot set to the score of that round's hand.
   */
  function Sheet(cats: seq<int>, hands: seq<seq<int>>): (card: seq<int>)
    requires |hands| == |cats| && forall r :: 0 <= r < |hands| ==> ValidHand(hands[r])
    requires forall r :: 0 <= r < |cats| ==> 0 <= cats[r] < NumCategories
    ensures |card| == NumCategories
    decreases |cats|
  {
    if cats == [] then seq(NumCategories, _ => Empty)
    else
      var n := |cats| - 1;
      Sheet(cats[..n], hands[..n])[cats[n] := Score(cats[n], hands[n])]
  }

  /** Every chosen category is a slot of the sheet and is filled. */
  predicate ChosenFilled(card: seq<int>, cats: seq<int>) {
    forall r :: 0 <= r < |cats| ==> 0 <= cats[r] < |card| && card[cats[r]] != Empty
  }

  /** No category appears twice. */
  predicate Distinct(cats: seq<int>) {
    forall a, b :: 0 <= a < b < |cats| ==> cats[a] != cats[b]
  }

  /** Every slot not among the chosen categories is still open. */
  predicate UnchosenOpen(card: seq<int>, cats: seq<int>) {
    forall c :: 0 <= c < |card| && c !in cats ==> card[c] == Empty
  }

  /** `after` is `before` with the open slot `c` set to the score of hand `d`. */
  predicate Entered(before: seq<int>, after: seq<int>, c: int, d: seq<int>)
    requires ValidHand(d)
  {
    IsOpen(before, c) && after == before[c := Score(c, d)]
  }

  /**
   * The state of a sheet after `round` rounds of the loop of main, whose
   * chosen categories are `cats` and whose final hands are `hands`.
   */
  predicate Progress(card: seq<int>, cats: seq<int>, hands: seq<seq<int>>, round: int) {
    0 <= round <= NumRounds && |cats| == round && |hands| == round &&
    (forall r :: 0 <= r < round ==> ValidHand(hands[r])) &&
    ValidCard(card) && FilledCount(card, NumCategories) == round &&
    ChosenFilled(card, cats) && Distinct(cats) && UnchosenOpen(card, cats) &&
    card == Sheet(cats, hands)
  }

  /**
   * The reroll step of main: the positions padded with -1 as entrer_suite
   * leaves them, the count of entries that are not -1, the roll of that many
   * fresh dice, and the substitution of each fresh die into its position.
   */
  method RerollStep(des: array<int>, r: Reroll)
    requires des.Length == NumDice && ValidReroll(r)
    modifies des
    ensures des[..] == Substitute(old(des[..]), r.positions, r.rolls)
  {
    var ps := r.positions;
    var toReroll := new int[NumDice](j => if 0 <= j < |ps| then ps[j] else -1);
    var count := 0;
    for j := 0 to NumDice
      invariant count == Min(j, |ps|)
    {
      if toReroll[j] != -1 {
        count := count + 1;
      }
    }
    var rerolled := new int[NumDice];
    RollDice(count, rerolled, r.rolls);
    ghost var start := des[..];
    for j := 0 to NumDice
      invariant forall k :: 0 <= k < NumDice ==> toReroll[k] == if k < |ps| then ps[k] else -1
      invariant forall k :: 0 <= k < NumDice ==> rerolled[k] == if k < |ps| then RollValue(r.rolls[k]) else -1
      invariant des[..] == Substitute(start, ps[..Min(j, |ps|)], r.rolls)
    {
      if rerolled[j] != -1 {
        assert ps[..j + 1][..j] == ps[..j];
        des[toReroll[j]] := rerolled[j];
      }
    }
    assert ps[..|ps|] == ps;
  }

  /**
   * The do-while loop of main: while the player answers "oui" and attempts
   * remain, applies one reroll and spends one attempt. Returns how many
   * rerolls were applied.
   */
  method RerollPhase(des: array<int>, rerolls: seq<Reroll>) returns (used: int)
    requires des.Length == NumDice && forall k :: 0 <= k < |rerolls| ==> ValidReroll(rerolls[k])
    modifies des
    ensures used == Min(|rerolls|, MaxRerolls)
    ensures des[..] == ApplyRerolls(old(des[..]), rerolls[..used])
  {
    var attempts := MaxRerolls;
    used := 0;
    assert rerolls[..0] == [];
    while true
      invariant 0 < attempts <= MaxRerolls && used == MaxRerolls - attempts && used <= |rerolls|
      invariant des[..] == ApplyRerolls(old(des[..]), rerolls[..used])
      decreases attempts
    {
      var again := used < |rerolls|;
      if again {
        assert rerolls[..used + 1][..used] == rerolls[..used];
        RerollStep(des, rerolls[used]);
        used := used + 1;
        attempts := attempts - 1;
      }
      if !(attempts > 0 && again) {
        break;
      }
    }
  }

  /**
   * One player's turn: the initial roll, the reroll phase, then the choice
   * of a category and the slot write of ScoreTurn.
   */
  method PlayTurn(card: array<int>, des: array<int>, t: Turn) returns (c: int)
    requires card.Length == NumCategories && des.Length == NumDice && card != des
    requires ValidTurn(t) && ValidCard(card[..])
    requires FilledCount(card[..], NumCategories) < NumCategories
    modifies card, des
    ensures IsOpen(old(card[..]), c)
    ensures des[..] == TurnDice(t) && ValidHand(des[..])
    ensures card[..] == old(card[..])[c := Score(c, des[..])]
    ensures ValidCard(card[..])
    ensures FilledCount(card[..], NumCategories) == old(FilledCount(card[..], NumCategories)) + 1
  {
    ghost var before := card[..];
    RollDice(NumDice, des, t.initial);
    assert des[..] == InitialHand(t.initial);
    var used := RerollPhase(des, t.rerolls);
    assert des[..] == TurnDice(t);
    c := ScoreTurn(card, des);
  }

  /**
   * The end of a turn: the listing of the open achieved categories, a choice
   * of an open category (the outcome of entrer_combinaison's retry loop),
   * the points of the dice in it and the slot write.
   */
  method ScoreTurn(card: array<int>, des: array<int>) returns (c: int)
    requires card.Length == NumCategories && des.Length == NumDice && card != des
    requires ValidHand(des[..]) && ValidCard(card[..])
    requires FilledCount(card[..], NumCategories) < NumCategories
    modifies card
    ensures IsOpen(old(card[..]), c)
    ensures card[..] == old(card[..])[c := Score(c, des[..])]
    ensures ValidCard(card[..])
    ensures FilledCount(card[..], NumCategories) == old(FilledCount(card[..], NumCategories)) + 1
  {
    ghost var before := card[..];
    var dispo, m := AvailableCombinations(des, card);
    OpenSlotExists(card[..], NumCategories);
    c :| 0 <= c < NumCategories && IsOpen(card[..], c);
    var points := ComputePoints(c, des);
    ScoreRange(c, des[..]);
    EnterPoints(card, c, points);
    FillOpenSlot(before, c, points, NumCategories);
  }

  /**
   * main: blank sheets, thirteen rounds in which each player in turn plays
   * one turn, then the winner. turns[2 * r + p] is player p's turn of round
   * r, and cats0, cats1 are the categories the two players chose, round by
   * round.
   */
  method PlayGame(turns: seq<Turn>) returns (final0: seq<int>, final1: seq<int>, cats0: seq<int>, cats1: seq<int>, winner: int)
    requires |turns| == NumRounds * NumPlayers
    requires forall k :: 0 <= k < |turns| ==> ValidTurn(turns[k])
    ensures ValidCard(final0) && AllFilled(final0)
    ensures ValidCard(final1) && AllFilled(final1)
    ensures |cats0| == NumRounds && |cats1| == NumRounds
    ensures forall r :: 0 <= r < NumRounds ==>
      0 <= cats0[r] < NumCategories && final0[cats0[r]] == Score(cats0[r], HandOf(turns, 0, r))
    ensures forall r :: 0 <= r < NumRounds ==>
      0 <= cats1[r] < NumCategories && final1[cats1[r]] == Score(cats1[r], HandOf(turns, 1, r))
    ensures forall a, b :: 0 <= a < b < NumRounds ==> cats0[a] != cats0[b] && cats1[a] != cats1[b]
    ensures forall c :: 0 <= c < NumCategories ==> c in cats0 && c in cats1
    ensures winner == 0 || winner == 1
    ensures winner == 1 <==> RawSum(final1, NumCategories) > RawSum(final0, NumCategories)
  {
    var s0 := NewScorecard();
    var s1 := NewScorecard();
    var scores := new array<int>[NumPlayers](p => if p == 0 then s0 else s1);
    var des := new int[NumDice];
    BlankCardCount(s0[..], NumCategories);
    BlankCardCount(s1[..], NumCategories);
    assert s0[..] == Sheet([], []) && s1[..] == Sheet([], []);
    ghost var hands0, hands1;
    cats0, cats1, hands0, hands1 := PlayRounds(scores, des, turns);
    final0, final1 := s0[..], s1[..];
    GameOutcome(final0, final1, cats0, cats1, hands0, hands1, turns);
    winner := FindWinner(scores);
  }

  /** Both players' sheets after the thirteen rounds, as PlayedTurns describes each. */
  lemma GameOutcome(final0: seq<int>, final1: seq<int>, cats0: seq<int>, cats1: seq<int>,
                    hands0: seq<seq<int>>, hands1: seq<seq<int>>, turns: seq<Turn>)
    requires ValidTurns(turns)
    requires Progress(final0, cats0, hands0, NumRounds) && HandsOf(hands0, turns, 0) && AllFilled(final0)
    requires Progress(final1, cats1, hands1, NumRounds) && HandsOf(hands1, turns, 1) && AllFilled(final1)
    ensures ValidCard(final0) && AllFilled(final0)
    ensures ValidCard(final1) && AllFilled(final1)
    ensures |cats0| == NumRounds && |cats1| == NumRounds
    ensures forall r :: 0 <= r < NumRounds ==>
      0 <= cats0[r] < NumCategories && final0[cats0[r]] == Score(cats0[r], HandOf(turns, 0, r))
    ensures forall r :: 0 <= r < NumRounds ==>
      0 <= cats1[r] < NumCategories && final1[cats1[r]] == Score(cats1[r], HandOf(turns, 1, r))
    ensures forall a, b :: 0 <= a < b < NumRounds ==> cats0[a] != cats0[b] && cats1[a] != cats1[b]
    ensures forall c :: 0 <= c < NumCategories ==> c in cats0 && c in cats1
  {
    PlayedTurns(final0, cats0, hands0, turns, 0);
    PlayedTurns(final1, cats1, hands1, turns, 1);
  }

  /** The round loop of main, from two blank sheets to two full ones. */
  method PlayRounds(scores: array<array<int>>, des: array<int>, turns: seq<Turn>)
    returns (cats0: seq<int>, cats1: seq<int>, ghost hands0: seq<seq<int>>, ghost hands1: seq<seq<int>>)
    requires scores.Length == NumPlayers && des.Length == NumDice
    requires scores[0] != scores[1] && scores[0] != des && scores[1] != des
    requires forall p :: 0 <= p < NumPlayers ==> scores[p].Length == NumCategories
    requires ValidTurns(turns)
    requires Progress(scores[0][..], [], [], 0) && Progress(scores[1][..], [], [], 0)
    modifies scores[0], scores[1], des
    ensures Progress(scores[0][..], cats0, hands0, NumRounds) && Progress(scores[1][..], cats1, hands1, NumRounds)
    ensures HandsOf(hands0, turns, 0) && HandsOf(hands1, turns, 1)
    ensures AllFilled(scores[0][..]) && AllFilled(scores[1][..])
  {
    var s0, s1 := scores[0], scores[1];
    cats0, cats1, hands0, hands1 := [], [], [], [];
    for round := 0 to NumRounds
      invariant scores[0] == s0 && scores[1] == s1
      invariant Progress(s0[..], cats0, hands0, round) && Progress(s1[..], cats1, hands1, round)
      invariant HandsOf(hands0, turns, 0) && HandsOf(hands1, turns, 1)
    {
      cats0, cats1, hands0, hands1 := PlayNextRound(scores, des, turns, round, cats0, cats1, hands0, hands1);
    }
    FullCountIsAllFilled(s0[..], NumCategories);
    FullCountIsAllFilled(s1[..], NumCategories);
  }

  /** One pass of the round loop of main: round `round` played on both sheets. */
  method PlayNextRound(scores: array<array<int>>, des: array<int>, turns: seq<Turn>, round: int,
                       cats0: seq<int>, cats1: seq<int>, ghost hands0: seq<seq<int>>, ghost hands1: seq<seq<int>>)
    returns (next0: seq<int>, next1: seq<int>, ghost nextHands0: seq<seq<int>>, ghost nextHands1: seq<seq<int>>)
    requires scores.Length == NumPlayers && des.Length == NumDice
    requires scores[0] != scores[1] && scores[0] != des && scores[1] != des
    requires forall p :: 0 <= p < NumPlayers ==> scores[p].Length == NumCategories
    requires ValidTurns(turns) && round < NumRounds
    requires Progress(scores[0][..], cats0, hands0, round) && Progress(scores[1][..], cats1, hands1, round)
    requires HandsOf(hands0, turns, 0) && HandsOf(hands1, turns, 1)
    modifies scores[0], scores[1], des
    ensures Progress(scores[0][..], next0, nextHands0, round + 1) && Progress(scores[1][..], next1, nextHands1, round + 1)
    ensures HandsOf(nextHands0, turns, 0) && HandsOf(nextHands1, turns, 1)
    ensures next0 == cats0 + [next0[round]] && next1 == cats1 + [next1[round]]
    ensures Entered(old(scores[0][..]), scores[0][..], next0[round], HandOf(turns, 0, round))
    ensures Entered(old(scores[1][..]), scores[1][..], next1[round], HandOf(turns, 1, round))
  {
    var s0, s1 := scores[0], scores[1];
    ghost var before0, before1 := s0[..], s1[..];
    var t0, t1 := turns[2 * round], turns[2 * round + 1];
    var c0, c1 := PlayRound(scores, des, t0, t1);
    ghost var h0, h1 := HandOf(turns, 0, round), HandOf(turns, 1, round);
    ProgressStep(before0, s0[..], cats0, hands0, round, c0, h0);
    ProgressStep(before1, s1[..], cats1, hands1, round, c1, h1);
    HandsOfStep(hands0, turns, 0);
    HandsOfStep(hands1, turns, 1);
    next0, next1 := cats0 + [c0], cats1 + [c1];
    nextHands0, nextHands1 := hands0 + [h0], hands1 + [h1];
  }

  /** Appending the hand of the next round keeps a list of hands faithful to the turns. */
  lemma HandsOfStep(hands: seq<seq<int>>, turns: seq<Turn>, p: int)
    requires ValidTurns(turns) && 0 <= p < NumPlayers
    requires HandsOf(hands, turns, p) && |hands| < NumRounds
    ensures HandsOf(hands + [HandOf(turns, p, |hands|)], turns, p)
  {
  }

  /** A round moves a sheet's state forward by the category chosen in it and the hand it ended with. */
  lemma ProgressStep(before: seq<int>, after: seq<int>, cats: seq<int>, hands: seq<seq<int>>, round: int, c: int, h: seq<int>)
    requires Progress(before, cats, hands, round) && round < NumRounds
    requires ValidHand(h) && Entered(before, after, c, h)
    ensures Progress(after, cats + [c], hands + [h], round + 1)
  {
    ScoreRange(c, h);
    FillOpenSlot(before, c, Score(c, h), NumCategories);
    FilledStep(before, after, cats, c);
    OpenStep(before, after, cats, c);
    assert (cats + [c])[..round] == cats && (hands + [h])[..round] == hands;
  }

  /**
   * One round of main: each player in turn plays one turn on their own
   * sheet; c0 and c1 are the categories they chose.
   */
  method PlayRound(scores: array<array<int>>, des: array<int>, t0: Turn, t1: Turn) returns (c0: int, c1: int)
    requires scores.Length == NumPlayers && des.Length == NumDice
    requires scores[0] != scores[1] && scores[0] != des && scores[1] != des
    requires forall p :: 0 <= p < NumPlayers ==> scores[p].Length == NumCategories
    requires ValidTurn(t0) && ValidTurn(t1)
    requires ValidCard(scores[0][..]) && ValidCard(scores[1][..])
    requires FilledCount(scores[0][..], NumCategories) < NumCategories
    requires FilledCount(scores[1][..], NumCategories) == FilledCount(scores[0][..], NumCategories)
    modifies scores[0], scores[1], des
    ensures Entered(old(scores[0][..]), scores[0][..], c0, TurnDice(t0))
    ensures Entered(old(scores[1][..]), scores[1][..], c1, TurnDice(t1))
    ensures ValidCard(scores[0][..]) && ValidCard(scores[1][..])
    ensures FilledCount(scores[0][..], NumCategories) == old(FilledCount(scores[0][..], NumCategories)) + 1
    ensures FilledCount(scores[1][..], NumCategories) == old(FilledCount(scores[1][..], NumCategories)) + 1
  {
    var s0, s1 := scores[0], scores[1];
    ghost var before0, before1 := s0[..], s1[..];
    ghost var n := FilledCount(s0[..], NumCategories);
    c0, c1 := 0, 0;
    for i := 0 to NumPlayers
      invariant scores[0] == s0 && scores[1] == s1
      invariant ValidCard(s0[..]) && ValidCard(s1[..])
      invariant FilledCount(s0[..], NumCategories) == n + if 0 < i then 1 else 0
      invariant FilledCount(s1[..], NumCategories) == n + if 1 < i then 1 else 0
      invariant if 0 < i then Entered(before0, s0[..], c0, TurnDice(t0)) else s0[..] == before0
      invariant if 1 < i then Entered(before1, s1[..], c1, TurnDice(t1)) else s1[..] == before1
    {
      var c := PlayTurn(scores[i], des, if i == 0 then t0 else t1);
      if i == 0 {
        c0 := c;
      } else {
        c1 := c;
      }
    }
  }

  /** Filling an open slot keeps the chosen slots filled and the chosen categories distinct. */
  lemma FilledStep(before: seq<int>, after: seq<int>, cats: seq<int>, c: int)
    requires ChosenFilled(before, cats) && Distinct(cats) && IsOpen(before, c)
    requires |after| == |before| && after[c] != Empty
    requires forall x :: 0 <= x < |before| && x != c ==> after[x] == before[x]
    ensures ChosenFilled(after, cats + [c]) && Distinct(cats + [c])
  {
    assert forall r :: 0 <= r < |cats| ==> (cats + [c])[r] == cats[r] && cats[r] != c;
  }

  /** Filling a slot that is then listed as chosen keeps every other slot open. */
  lemma OpenStep(before: seq<int>, after: seq<int>, cats: seq<int>, c: int)
    requires UnchosenOpen(before, cats) && 0 <= c < |before|
    requires |after| == |before|
    requires forall x :: 0 <= x < |before| && x != c ==> after[x] == before[x]
    ensures UnchosenOpen(after, cats + [c])
  {
    forall x | 0 <= x < |after| && x !in cats + [c]
      ensures after[x] == Empty
    {
      assert x !in cats;
    }
  }

  /** With no category chosen twice, each chosen slot of the sheet holds its round's score. */
  lemma {:induction false} SheetAt(cats: seq<int>, hands: seq<seq<int>>, r: int)
    requires |hands| == |cats| && forall k :: 0 <= k < |hands| ==> ValidHand(hands[k])
    requires forall k :: 0 <= k < |cats| ==> 0 <= cats[k] < NumCategories
    requires Distinct(cats) && 0 <= r < |cats|
    ensures Sheet(cats, hands)[cats[r]] == Score(cats[r], hands[r])
    decreases |cats|
  {
    var n := |cats| - 1;
    if r < n {
      assert cats[..n][r] == cats[r] && hands[..n][r] == hands[r];
      SheetAt(cats[..n], hands[..n], r);
    }
  }

  /**
   * After all thirteen rounds, each round's category holds the score of the
   * dice of that round's turn, no category was chosen twice, and every
   * category was chosen.
   */
  lemma PlayedTurns(card: seq<int>, cats: seq<int>, hands: seq<seq<int>>, turns: seq<Turn>, p: int)
    requires ValidTurns(turns) && 0 <= p < NumPlayers
    requires Progress(card, cats, hands, NumRounds) && HandsOf(hands, turns, p) && AllFilled(card)
    ensures forall r :: 0 <= r < NumRounds ==>
      0 <= cats[r] < NumCategories && card[cats[r]] == Score(cats[r], HandOf(turns, p, r))
    ensures forall a, b :: 0 <= a < b < NumRounds ==> cats[a] != cats[b]
    ensures forall c :: 0 <= c < NumCategories ==> c in cats
  {
    forall r | 0 <= r < NumRounds
      ensures card[cats[r]] == Score(cats[r], HandOf(turns, p, r))
    {
      assert hands[r] == HandOf(turns, p, r);
      SheetAt(cats, hands, r);
    }
  }

  /** A blank sheet has no filled slot. */
  lemma {:induction false} BlankCardCount(card: seq<int>, n: nat)
    requires n <= |card| && forall c :: 0 <= c < n ==> card[c] == Empty
    ensures FilledCount(card, n) == 0
  {
    if n > 0 {
      BlankCardCount(card, n - 1);
    }
  }

  /** The reroll substitution leaves a position that is never listed as it was. */
  lemma {:induction false} SubstituteKeeps(d: seq<int>, ps: seq<int>, rolls: seq<nat>, i: int)
    requires |rolls| >= |ps| && forall j :: 0 <= j < |ps| ==> 0 <= ps[j] < |d|
    requires 0 <= i < |d| && i !in ps
    ensures Substitute(d, ps, rolls)[i] == d[i]
    decreases |ps|
  {
    if ps != [] {
      assert ps == ps[..|ps| - 1] + [ps[|ps| - 1]];
      SubstituteKeeps(d, ps[..|ps| - 1], rolls, i);
    }
  }

  /** A listed position takes the die drawn for its last listing: the later entry wins. */
  lemma {:induction false} SubstituteLastWins(d: seq<int>, ps: seq<int>, rolls: seq<nat>, j: int)
    requires |rolls| >= |ps| && forall k :: 0 <= k < |ps| ==> 0 <= ps[k] < |d|
    requires 0 <= j < |ps| && forall k :: j < k < |ps| ==> ps[k] != ps[j]
    ensures Substitute(d, ps, rolls)[ps[j]] == RollValue(rolls[j])
    decreases |ps|
  {
    if j < |ps| - 1 {
      SubstituteLastWins(d, ps[..|ps| - 1], rolls, j);
    }
  }

  /** The dice keep showing faces after the substitution. */
  lemma {:induction false} SubstituteFaces(d: seq<int>, ps: seq<int>, rolls: seq<nat>)
    requires |rolls| >= |ps| && forall j :: 0 <= j < |ps| ==> 0 <= ps[j] < |d|
    requires AllFaces(d)
    ensures AllFaces(Substitute(d, ps, rolls))
    decreases |ps|
  {
    if ps != [] {
      SubstituteFaces(d, ps[..|ps| - 1], rolls);
    }
  }

  /** Rerolls keep a hand a hand. */
  lemma {:induction false} ApplyRerollsFaces(d: seq<int>, rs: seq<Reroll>)
    requires ValidHand(d) && forall k :: 0 <= k < |rs| ==> ValidReroll(rs[k])
    ensures ValidHand(ApplyRerolls(d, rs))
    decreases |rs|
  {
    if rs != [] {
      var last := rs[|rs| - 1];
      ApplyRerollsFaces(d, rs[..|rs| - 1]);
      SubstituteFaces(ApplyRerolls(d, rs[..|rs| - 1]), last.positions, last.rolls);
    }
  }

  /** Rerolls past the third are never applied. */
  lemma ExtraRerollsIgnored(t: Turn, extra: seq<Reroll>)
    requires ValidTurn(t) && |t.rerolls| >= MaxRerolls
    requires forall k :: 0 <= k < |extra| ==> ValidReroll(extra[k])
    ensures ValidTurn(Turn(t.initial, t.rerolls + extra))
    ensures TurnDice(Turn(t.initial, t.rerolls + extra)) == TurnDice(t)
  {
    assert (t.rerolls + extra)[..MaxRerolls] == t.rerolls[..MaxRerolls];
  }
}
