# Yams rule engine in Dafny

This project models the rule engine of YAMS.c, a two-player Yams game. Yams
is the French form of Yahtzee. Five dice are rolled, some of them can be
rolled again up to three times, and the hand is then written into one of the
thirteen categories of the player's score sheet. The categories are:

- the six face totals ("Total de 1" to "Total de 6");
- Brelan (three of a kind) and Carré (four of a kind);
- Full House;
- Petite suite (small straight) and Grande suite (large straight);
- Yams (five of a kind);
- Chance.

After thirteen rounds the player with the higher sheet sum wins.

The model keeps the program's form. The dice, the face counters, the sorted
copy, the category lists and the score sheets are arrays. The routines are
methods whose loops carry invariants. Each method is proved against a pure
specification function on sequences, and lemmas state and prove game
properties about those functions.

The modules are:

- `Dice` (dice.dfy):
  - the face histogram (compter_des);
  - the bubble sort of a copy of the dice (trier_des);
  - the roll (lancer_des).
- `Combinations` (combinations.dfy): the six combination tests, each a
  predicate on the hand plus the flag loop that decides it.
- `Scoring` (scoring.dfy): the points of each category (compter_points).
- `Scorecard` (scorecard.dfy):
  - the thirteen-slot sheet, where -1 marks an open slot;
  - the validity rule for the category name a player types;
  - the slot write;
  - the totals and the bonus;
  - the winner.
- `Categories` (categories.dfy):
  - the ordered list of categories a hand achieves (combinaisons_possibles);
  - the sub-list of them whose slot is still open (the filter of
    combinaisons_disponibles).
- `Game` (game.dfy): main's turn and game loops, made of the initial roll,
  the reroll loop with its attempt counter, the category choice, and the
  thirteen rounds of two players.

Randomness and the player's answers are inputs:

- Every `rand()` result is a `nat` supplied by the caller. The die it
  produces is `r % 6 + 1`, as in lancer_des.
- A turn lists the rerolls the player asks for. The player answers "oui"
  while rerolls remain in that list and "non" once it runs out.
- The category the player names is chosen nondeterministically among the
  open slots. That choice is the outcome of entrer_combinaison's retry loop.
  One pass of that loop, the lookup in the name table and the open-slot
  check, is modelled on its own as `Scorecard.SelectCategory`.

At two points the code differs from the usual Yams rules, which allow three
rolls per turn and count the bonus in the winner's total. The model follows
the code:

- **Number of rerolls.** The attempt counter starts at 3 and is decremented
  once per reroll, so up to three rerolls follow the initial roll. This
  agrees with the file's header comment (YAMS.c:13-14).
- **How the winner is chosen.** `trouver_vainqueurs` ranks the players by the
  plain sum of their thirteen slots, so the upper-section bonus does not
  count. `Scorecard.RawRankingIgnoresBonus` gives two sheets on which that
  ranking and the grand total disagree.

## Model

| member | source | states |
|---|---|---|
| Dice.CountDice | YAMS.c:81-89 | after the zeroing loop and the counting loop, counter k holds the number of dice showing face k + 1. |
| Dice.HandHistogram | YAMS.c:81-89 | for any five dice each in 1..6, every count lies in 0..5, the six counts add up to 5, and no value outside 1..6 is counted. |
| Dice.CountSumIsLength | YAMS.c:86-88 | when every die shows a face, the histogram adds up to the number of dice. |
| Dice.SortDice | YAMS.c:101-117 | the result array is sorted non-decreasingly and is a permutation of the dice, and the input array is left unchanged. |
| Dice.BubblePass | YAMS.c:109-115 | one pass of the inner loop permutes the copy and settles one more position at the end. |
| Dice.PassStep | YAMS.c:110-114 | one compare-and-swap moves the largest die seen so far one position to the right and keeps the settled tail settled. |
| Dice.SwapAdjacent | YAMS.c:111-113 | the exchange through temp swaps two neighbouring dice and keeps the multiset of dice. |
| Dice.RollDice | YAMS.c:745-752 | all five entries become -1, then the first `count` entries take the faces `r % 6 + 1` of the supplied generator results. |
| Dice.RollValue | YAMS.c:750 | the die drawn from any non-negative generator result is a face in 1..6. |
| Combinations.CheckFullHouse | YAMS.c:131-151 | returns true exactly when one face shows exactly three times and another exactly twice. |
| Combinations.CheckThreeOfAKind | YAMS.c:165-179 | returns true exactly when some face shows at least three times. |
| Combinations.CheckFourOfAKind | YAMS.c:193-207 | returns true exactly when some face shows at least four times. |
| Combinations.CheckSmallStraight | YAMS.c:221-241 | returns true exactly when the faces 1-4, 2-5 or 3-6 all show. |
| Combinations.CheckLargeStraight | YAMS.c:255-269 | returns true exactly when the faces 1-5 or 2-6 all show. |
| Combinations.CheckYams | YAMS.c:283-297 | returns true exactly when one face shows on all five dice. |
| Combinations.FourImpliesThree | YAMS.c:165-207 | every carré is a brelan. |
| Combinations.YamsImpliesFour | YAMS.c:283-297 | every yams is a carré. |
| Combinations.YamsIsNotFullHouse | YAMS.c:131-151 | a hand is never both a yams and a full house. |
| Combinations.LargeImpliesSmall | YAMS.c:221-269 | every grande suite is a petite suite. |
| Combinations.LargeStraightSorted | YAMS.c:255-269 | for a hand and a sorted permutation of it, grande suite holds exactly when each sorted die is one less than the next, and exactly when the sorted dice are 1-2-3-4-5 or 2-3-4-5-6. |
| Combinations.ConsecutiveIffStraightSeq | YAMS.c:262-266 | a sorted hand whose dice step by one is exactly 1-2-3-4-5 or 2-3-4-5-6. |
| Combinations.RunIsConsecutive | YAMS.c:262-266 | a sorted hand holding five consecutive faces steps by one. |
| Combinations.ConsecutiveIsRun | YAMS.c:262-266 | a sorted hand that steps by one holds five consecutive faces. |
| Scoring.ComputePoints | YAMS.c:351-425 | returns the points of the category. For 0..5 that is the count of face c + 1 times c + 1. Brelan and carré score the dice whose face shows at least 3 or 4 times, or 0 without the combination. 8..11 are worth 25/30/40/50 or 0. Chance is the dice sum. Any other index scores 0. |
| Scoring.GroupSumIsFaceTimesCount | YAMS.c:370-384 | once a face shows at least k >= 3 times, the dice summed over that threshold are exactly that face times its count. |
| Scoring.ThreeOfAKindScore | YAMS.c:368-376 | brelan scores the face times its count, or 0 when there is no brelan. |
| Scoring.FourOfAKindScore | YAMS.c:378-387 | carré scores the face times its count, or 0 when there is no carré. |
| Scoring.ScoreRange | YAMS.c:358-421 | every category scores between 0 and 50, and chance scores at least 5. |
| Scoring.DiceSumBounds | YAMS.c:413-417 | the sum of n dice lies between n and 6n. |
| Scoring.GroupSumBounds | YAMS.c:370-384 | the face-restricted sum lies between 0 and the dice sum. |
| Scoring.BrelanExample | YAMS.c:368-376 | 4-4-4-6-6 scores 12 as a brelan, so the pair of sixes does not count. |
| Scoring.FullHouseExample | YAMS.c:389-393 | 2-2-3-3-3 scores 25 as a full house. |
| Scoring.YamsFullHouseExample | YAMS.c:389-411 | five fives score 0 as a full house and 50 as a yams. |
| Scoring.LargeStraightExamples | YAMS.c:401-405 | 1-2-3-4-5 scores 40 as a grande suite and 1-2-2-4-5 scores 0. |
| Scorecard.NewScorecard | YAMS.c:838-842 | a new sheet has thirteen slots, all -1. |
| Scorecard.SelectCategory | YAMS.c:318-334 | one pass of the name loop answers an index in 0..12 that carries the typed name and whose slot is -1, and answers -1 exactly when no open category has that name. |
| Scorecard.EnterPoints | YAMS.c:469-471 | writes the points into the chosen slot and changes no other slot. |
| Scorecard.FillOpenSlot | YAMS.c:469-471 | filling an open slot with a score of at least 0 adds exactly one filled slot. |
| Scorecard.ScoreTotals | YAMS.c:672-731 | the upper total is the sum of the filled slots 0..5. The bonus is 35 when that total exceeds 62 and 0 otherwise. The lower total is the sum of the filled slots 6..12. The grand total is the three added. |
| Scorecard.FullCardTotals | YAMS.c:672-731 | on a complete sheet, upper plus lower is the plain slot sum, and the grand total is that sum plus the bonus. |
| Scorecard.BonusLaw | YAMS.c:686-688 | the bonus is 35 exactly when the upper total is above 62, so 62 earns nothing and 63 earns it. |
| Scorecard.FindWinner | YAMS.c:437-456 | returns 0 or 1; the winner's plain slot sum is at least the other player's, and player 1 wins exactly when that player's sum is strictly higher, so a tie goes to player 0 whatever total_max starts as. |
| Scorecard.RawRankingIgnoresBonus | YAMS.c:437-456 | on two given sheets, player 1 has the higher plain sum, so FindWinner's contract picks player 1, while player 0 has the higher grand total. |
| Scorecard.OpenSlotExists | YAMS.c:318-334 | a sheet with fewer than thirteen filled slots has an open slot, so the retry loop of entrer_combinaison can end. |
| Scorecard.FullCountIsAllFilled | YAMS.c:847-894 | a sheet counted as fully filled has no -1 left. |
| Categories.PossibleCombinations | YAMS.c:486-531 | the array's first n entries are 12, then the achieved combinations among 6..11 in ascending order, then the face indices 0..5 whose counter is non-zero, in ascending order. |
| Categories.PushIf | YAMS.c:493-496 | when the test holds, the value is written at the counter's position and the counter grows by one; otherwise both are unchanged. The entries before the counter are kept. |
| Categories.AppendMultiples | YAMS.c:493-506 | the brelan, carré and full house tests append 6, 7 and 8, in that order, for exactly the combinations the hand makes, after the entries already listed. |
| Categories.AppendSequences | YAMS.c:508-521 | the petite suite, grande suite and yams tests append 9, 10 and 11, in that order, for exactly the combinations the hand makes, after the entries already listed. |
| Categories.AppendCombinations | YAMS.c:493-521 | the six tests append 6..11, in order, for exactly the combinations the hand makes. |
| Categories.AppendFaces | YAMS.c:523-530 | the final loop appends, in ascending order, each face index whose die shows. |
| Categories.AchievableShape | YAMS.c:486-531 | the list starts with 12, has between 1 and 13 entries, all in 0..12 and distinct, and puts the combinations in ascending order before the faces in ascending order. |
| Categories.AchievableMembers | YAMS.c:486-531 | a category is listed exactly when the hand achieves it. |
| Categories.AchievableIsScoring | YAMS.c:486-531 | a category is listed exactly when the hand scores more than 0 points in it. |
| Categories.MetIffScores | YAMS.c:351-425 | a category is achieved exactly when its score is positive. |
| Categories.ListedOrder | YAMS.c:486-531 | the achieved categories of a range lie in it, in strictly ascending order. |
| Categories.ListedMembers | YAMS.c:486-531 | the achieved categories of a range are exactly those listed for it. |
| Categories.ListedSplit | YAMS.c:486-531 | the list of a range is the list of its lower part followed by that of its upper part. |
| Categories.AvailableCombinations | YAMS.c:544-563 | the kept entries are the listed categories in their order, keeping exactly those whose slot is -1. |
| Categories.FilterOpen | YAMS.c:552-563 | the nested loops keep, in order, exactly the entries whose slot is -1. |
| Categories.AvailableProps | YAMS.c:552-563 | an entry is kept exactly when it is listed and open; the filter never lengthens the list and keeps distinct entries distinct. |
| Categories.AvailableAppend | YAMS.c:552-563 | the filter preserves order: filtering a concatenation gives the concatenation of the filtered parts. |
| Categories.AvailableExtremes | YAMS.c:552-563 | on an all-open sheet the filter removes nothing; on a full sheet it removes everything. |
| Categories.ChanceAvailable | YAMS.c:489-491 | while chance is open, it is always among the available categories. |
| Game.RerollStep | YAMS.c:858-879 | the positions padded with -1, the count of entries other than -1, the roll of that many dice and the substitution leave the dice as the listed positions replaced, in order, by the fresh faces. |
| Game.SubstituteKeeps | YAMS.c:875-879 | a die whose position is not listed keeps its value. |
| Game.SubstituteLastWins | YAMS.c:875-879 | a listed position takes the fresh die of its last listing, so a later duplicate wins. |
| Game.SubstituteFaces | YAMS.c:875-879 | after the substitution every die still shows a face in 1..6. |
| Game.RerollPhase | YAMS.c:853-887 | the loop applies min(rerolls asked, 3) rerolls in order and stops at the first "non" or when the attempts run out. |
| Game.ExtraRerollsIgnored | YAMS.c:853-887 | rerolls asked for beyond the third change nothing. |
| Game.TurnDice | YAMS.c:850-887 | the dice a turn ends with, after the initial roll and the rerolls the attempt counter lets through, form a valid hand. |
| Game.PlayTurn | YAMS.c:848-892 | after the initial roll and the rerolls, the dice are the turn's specified hand. The chosen slot was open, and it receives that hand's score in the category while every other slot is unchanged. The sheet stays valid and gains exactly one filled slot. |
| Game.ScoreTurn | YAMS.c:889-891 | the chosen category's slot was open. The sheet becomes the old sheet with that slot set to the score of the dice, and every other slot is unchanged. The sheet stays valid and gains exactly one filled slot. |
| Game.PlayRound | YAMS.c:848-894 | each player, in turn, chooses a category c_p whose slot was open, and their sheet becomes the old sheet with slot c_p set to the score of the dice of their turn. Every other slot is unchanged. Each sheet stays valid and gains exactly one filled slot. |
| Game.ProgressStep | YAMS.c:848-894 | entering a round's hand into an open slot moves the round state forward by one: one more filled slot, the chosen categories still distinct and filled, the others still open, and the sheet equal to the blank sheet with each round's slot set to that round's score. |
| Game.FilledStep | YAMS.c:889-891 | filling an open slot keeps every chosen slot filled and the chosen categories distinct. |
| Game.OpenStep | YAMS.c:889-891 | filling the slot of the newly chosen category leaves every unchosen slot open. |
| Game.HandsOfStep | YAMS.c:848-894 | adding the hand of the next round's turn keeps the list of hands equal, round by round, to the dice of the player's turns. |
| Game.PlayNextRound | YAMS.c:848-894 | one pass of the round loop appends one category to each player's list of chosen categories. That category's slot was open, and the sheet becomes the old sheet with it set to the score of the dice of the player's turn of that round. All other slots keep their values. The round state of both sheets is kept, and the hands stay equal to the turns' dice. |
| Game.PlayRounds | YAMS.c:847-895 | after the thirteen passes each sheet is full and equals the blank sheet with every round's chosen slot set to the score of that round's hand, and the hands are the dice of the turns. |
| Game.SheetAt | YAMS.c:889-891 | when no category is chosen twice, the slot of each round's category holds the score of that round's hand. |
| Game.PlayedTurns | YAMS.c:847-895 | after thirteen rounds, each round's category holds the score of the dice of that round's turn, no category was chosen twice, and every category was chosen. |
| Game.GameOutcome | YAMS.c:847-895 | for both players at once, after thirteen rounds: the sheets are valid and full, each round's slot holds the score of the dice of that round's turn, and the categories are distinct and cover all thirteen slots. |
| Game.PlayGame | YAMS.c:838-897 | the game returns both players' categories, round by round. Both sheets are complete and valid. For every round r, player p's slot for round r's category holds that category's score for the dice of turn turns[2r + p]. The thirteen categories of each player are distinct and cover all thirteen slots. The winner is 0 or 1, and it is 1 exactly when player 1's plain slot sum is strictly higher. |

## Left out

- Console input and output are not modelled: printf and scanf, entrer_chaine, the reading and repeat loops of entrer_booleen, entrer_suite and entrer_combinaison, the display of dice (afficher_des), the printed half of afficher_scores including its display copy `affiche`, the "points" line of compter_points, and the list printing of combinaisons_disponibles. Only the logic these routines feed is modelled.
- srand, time and rand are not modelled. Every generator result is a caller-supplied `nat`, and the die is `r % 6 + 1`, which agrees with C's `%` because rand() is never negative.
- The player's answers are inputs. "oui" is answered while rerolls remain in the turn's list. The positions are given after entrer_suite's validation, so the loop that rejects entries outside 0..5 is left out.
- The category choice is nondeterministic. In main it comes from entrer_combinaison's retry loop, which keeps reading names until one names an open slot. Game.PlayTurn takes any open slot, and Scorecard.SelectCategory models one pass of that loop.
- Scorecard.FindWinner: total_max is read before it is ever written, which is undefined behaviour in C. It is modelled as an arbitrary starting value; the contract shows that value never decides the result.
- Game.PlayGame: the player names are left out, since they are only printed.
- Dice.RollDice: a count above five would write past the array in C; the model requires at most five, which entrer_suite guarantees.
