# A verified model of the poker-teacher rules engine

poker-teacher is a Texas Hold'em teaching game written in Rust on the Bevy
engine. This project models its rules engine in Dafny and proves what that
engine promises. The modelled parts are:

- the deck;
- the hand evaluator: the total order on evaluations, the recursive
  `combinations`, best-of-21 selection and five-card classification;
- players' chip bookkeeping;
- the betting round: its last-in-first-out queue of seats, the action
  rules, the completion rule, the fallback AI and the wait for the human;
- the dealer button and blinds;
- the phase machine `Setup → Dealing → PreFlop → Flop → Turn → River →
  Showdown → GameOver` with blind posting and the showdown payout;
- the integer part of the AI policy;
- the teaching hints;
- the raise-amount input.

The Bevy layer is replaced by plain values. An ECS query becomes a
`seq<Player>` in iteration order. A resource becomes an object the method
is handed. The frame timer becomes a `timerFired` flag.

The model follows the code's form:

- **Classes.** State that the source updates in place is a class whose
  methods name what they modify: `Deck`, `Player`, `BettingRound`,
  `GameData`, `GamePosition`, `GameController`, `TeachingState` and
  `HumanPlayerInput`.
- **Loops.** Loops over players or the deck are `while` loops with
  invariants.
- **Pure code.** The evaluator's pure parts (`Ord`, `combinations`, the
  classification match) are functions with lemmas.
- **Specifying functions.** Each imperative operation is proved against a
  function that states its effect. `ProcessPlayerAction` is proved against
  `ApplyAction`, `PostBlinds` against `AfterBlinds`, `DealHoleCards`
  against `DealtTwo`, `DetermineWinner` against `ShowdownWinner` and
  `Award`, and the controller against `NextPhase`.

Files, one module each:

- `cards.dfy` (module `Cards`): src/cards.rs
- `rank_sort.dfy` (module `RankSort`): the descending rank sort of src/poker_rules.rs
- `hand_order.dfy` (module `HandOrder`): `HandRank`, `HandEvaluation`, `Ord`, `hand_rank_name`
- `combinations.dfy` (module `Combinatorics`): `combinations`
- `five_card.dfy` (module `FiveCard`): `evaluate_five_card_hand`, `is_straight_hand`
- `best_hand.dfy` (module `BestHand`): `find_best_five_card_hand`, `evaluate_hand`
- `player.dfy` (module `Players`): src/player.rs
- `actions.dfy` (module `Actions`): `PlayerAction`
- `betting_ui.dfy` (module `BettingUi`): `BettingButtonAction`, `HumanPlayerInput`
- `betting.dfy` (module `Betting`): src/betting.rs
- `game_state.dfy` (module `GameStates`): src/game_state.rs
- `game_controller.dfy` (module `Controller`): `post_blinds`, dealing, `determine_winner`, `toggle_auto_advance`
- `phase_machine.dfy` (module `PhaseMachine`): `game_state_controller`
- `ai_player.dfy` (module `AiPlayer`): src/ai_player.rs, integer part
- `teaching.dfy` (module `Teaching`): src/teaching.rs
- `touch_input.dfy` (module `TouchInput`): src/touch_input.rs, button handling
- `common.dfy` (module `Common`): helpers: `Min`, `Max`, saturating subtraction, `Distinct`, `Sum`, `Reverse`

Quirks the model keeps exactly as the code has them:

- The action queue is consumed from the back.
- A wheel straight (A-5-4-3-2) scores primary 14.
- A suited wheel is a `RoyalFlush`.
- A raise is affordable when the chips cover the round's bet plus the
  raise, whatever the seat has already put in.
- `Check` changes nothing, even when a call is owed.
- Dealing resets the round's bet to 0 after `BettingRound::new` set it to
  the big blind.
- Blinds go to `game_data.pot`, which the end of each street overwrites
  with the betting round's pot.
- `GameOver` with at most one player holding chips never leaves that
  state.

## Model

| member | source | states |
|---|---|---|
| Cards.Rank.Value | src/cards.rs:13-27 | rank values lie in 2..14, and the value is 14 exactly for the ace |
| Cards.RankOrder | src/cards.rs:13-27 | the thirteen ranks run 2..14 in order, and different ranks have different values |
| Cards.SuitRunContents | src/cards.rs:50-58 | one suit's inner loop yields every card of that suit exactly once and no other |
| Cards.FullDeckComplete | src/cards.rs:46-62 | the default deck has 52 pairwise-distinct cards, contains every card, and has 13 of each suit |
| Cards.ShuffledDeckComplete | src/cards.rs:74-77 | any rearrangement of the full deck still has 52 distinct cards covering every card |
| Cards.Deck.constructor | src/cards.rs:46-62 | the nested push loops build exactly the suit-by-suit, rank-by-rank full deck |
| Cards.Deck.Shuffle | src/cards.rs:65-68 | the result is a permutation of the previous cards, whatever the random swaps were |
| Cards.Deck.Deal | src/cards.rs:70-72 | a non-empty deck yields its last card and keeps the rest in order; an empty deck yields None and stays empty |
| Cards.Deck.Reset | src/cards.rs:74-77 | whatever the earlier state, the deck becomes a permutation of the full deck |
| RankSort.SortDesc | src/poker_rules.rs:129-132 | the rank sort returns a descending permutation of its input |
| RankSort.DescendingUnique | src/poker_rules.rs:129-132 | two descending sequences with the same elements are equal, so the sorted ranks do not depend on the card order |
| RankSort.SortDescCanonical | src/poker_rules.rs:129-132 | permuted inputs sort to the same result, and an already descending input sorts to itself |
| HandOrder.HandRank.Discriminant | src/poker_rules.rs:6-17 | categories carry the discriminants 1..10, HighCard lowest and RoyalFlush highest |
| HandOrder.CompareNat | src/poker_rules.rs:36 | the three outcomes match `<`, `==` and `>` on the values |
| HandOrder.CompareSeqReverse | src/poker_rules.rs:45 | the `Vec` comparison reverses when its operands swap, and reports Equal only for equal sequences |
| HandOrder.CompareSeqPrefix | src/poker_rules.rs:45 | a proper prefix of a kicker list compares Less |
| HandOrder.CompareAntisymmetric | src/poker_rules.rs:33-56 | swapping the evaluations reverses the result, and only identical evaluations compare Equal |
| HandOrder.CompareTransitive | src/poker_rules.rs:33-56 | Less is transitive |
| HandOrder.LeTotalOrder | src/poker_rules.rs:33-56 | at-most is reflexive, antisymmetric, transitive and total |
| HandOrder.CategoryDecides | src/poker_rules.rs:33-56 | a higher category wins whatever the values and kickers |
| HandOrder.PrimaryDecides | src/poker_rules.rs:33-56 | within a category, a higher primary value wins |
| HandOrder.HandRankName | src/poker_rules.rs:279-292 | every category has a display name of at least five characters; `HandRankNameInjective` shows they differ |
| HandOrder.HandRankNameInjective | src/poker_rules.rs:279-292 | different categories have different names |
| Combinatorics.PrependAll | src/poker_rules.rs:107-110 | putting the first card in front keeps the number of combinations |
| Combinatorics.PrependAllAt | src/poker_rules.rs:107-110 | the i-th result is the i-th combination with the card in front |
| Combinatorics.CombinationsSound | src/poker_rules.rs:93-116 | every combination has exactly k elements and is an order-preserving subsequence of the input |
| Combinatorics.CombinationsComplete | src/poker_rules.rs:93-116 | every order-preserving subsequence of length k appears among the combinations |
| Combinatorics.CombinationsSplit | src/poker_rules.rs:104-115 | combinations keeping the first card come first, then those that drop it |
| Combinatorics.CombinationsCount | src/poker_rules.rs:93-116 | there are exactly Binomial(n, k) combinations, so k = 0 gives one and k > n gives none |
| Combinatorics.SevenChooseFive | src/poker_rules.rs:82 | seven cards give 21 five-card combinations |
| Combinatorics.SubseqFull | src/poker_rules.rs:100-102 | a subsequence as long as the whole is the whole |
| Combinatorics.SubseqMultiset | src/poker_rules.rs:93-116 | a subsequence holds no card more often than the input |
| Combinatorics.SubMultisetSubseq | src/poker_rules.rs:93-116 | any sub-multiset of the input is the multiset of some subsequence, so selection does not depend on input order |
| FiveCard.RankValues | src/poker_rules.rs:132 | every rank value lies in 2..14, one per card |
| FiveCard.RankValuesPermutation | src/poker_rules.rs:132 | rearranged cards give rearranged rank values |
| FiveCard.IsFlushPermutation | src/poker_rules.rs:141 | the flush test does not depend on card order |
| FiveCard.StraightFromIff | src/poker_rules.rs:266-276 | the loop from position i accepts exactly when every later step is 1, or the ranks are the wheel |
| FiveCard.IsStraightIff | src/poker_rules.rs:260-277 | `is_straight_hand` holds exactly for five ranks stepping down by one, or for [14,5,4,3,2] |
| FiveCard.StraightDistinct | src/poker_rules.rs:260-277 | a straight has no repeated rank |
| FiveCard.CountGroups | src/poker_rules.rs:136-174 | the (count, rank) groups are sorted by count then rank, descending, and list each rank's true frequency |
| FiveCard.GroupsUnique | src/poker_rules.rs:164-174 | two strictly sorted group lists with the same groups are equal, so the grouping is canonical |
| FiveCard.CountGroupsIs | src/poker_rules.rs:164-174 | a strictly sorted list holding exactly the true frequencies is the grouping |
| FiveCard.EvaluateFiveCardHand | src/poker_rules.rs:118-127 | a hand of any length other than five gives HighCard with 0, 0 and kickers [0;5] |
| FiveCard.EvaluateFive | src/poker_rules.rs:129-142 | proof helper that unfolds `EvaluateFiveCardHand` on five cards: the score is that of the descending rank values and the flush flag |
| FiveCard.EvaluatePermutation | src/poker_rules.rs:118-258 | the evaluation depends only on which cards are held, not on their order |
| FiveCard.FiveCardBeatsStart | src/poker_rules.rs:74-84 | every five-card evaluation has primary at least 2 and beats the search's starting value |
| FiveCard.PairedNotStraight | src/poker_rules.rs:266-273 | ranks with a repeated value are not a straight |
| FiveCard.FourOfAKindHand | src/poker_rules.rs:178-183 | a 4-1 pattern scores FourOfAKind with the quad rank and the single as kicker |
| FiveCard.FullHouseHand | src/poker_rules.rs:186-191 | a 3-2 pattern scores FullHouse with trips as primary and the pair as secondary |
| FiveCard.ThreeOfAKindHand | src/poker_rules.rs:194-203 | a 3-1-1 pattern scores ThreeOfAKind with the two singles as descending kickers |
| FiveCard.TwoPairHand | src/poker_rules.rs:206-218 | a 2-2-1 pattern scores TwoPair with the higher pair primary, the lower secondary, the single as kicker |
| FiveCard.OnePairHand | src/poker_rules.rs:221-230 | a 2-1-1-1 pattern scores OnePair with the three singles as descending kickers |
| FiveCard.DistinctRanksHand | src/poker_rules.rs:144-256 | five distinct ranks score RoyalFlush (suited straight to the ace, the suited wheel included), StraightFlush, Flush, Straight (the wheel with primary 14) or HighCard, with the top rank primary and the others as descending kickers |
| FiveCard.ScorePrimary | src/poker_rules.rs:144-258 | every classification has a primary value of at least 2 |
| FiveCard.NoPatternClassified | src/poker_rules.rs:232-256 | with five singleton groups the result is Flush, Straight or HighCard by the flags |
| BestHand.FindBestFiveCardHand | src/poker_rules.rs:68-91 | the loop returns the first strictly best combination; for more than five cards it is a five-card subsequence no combination beats |
| BestHand.BestAmongMaximal | src/poker_rules.rs:82-88 | the kept evaluation belongs to a visited combination and none visited scores higher |
| BestHand.BestHandIsMaximal | src/poker_rules.rs:68-91 | for more than five cards the chosen hand is a five-card subsequence of maximal evaluation |
| BestHand.EvaluateHandSpec | src/poker_rules.rs:58-66 | fewer than five cards give the wrong-size value, five are scored as they are, and more give the maximum over all five-card subsequences |
| BestHand.EvaluateHandPermutation | src/poker_rules.rs:58-91 | the result does not depend on card order or on the split between hole and community cards |
| Players.Player.constructor | src/player.rs:32-42 | a new player has the given chips, no bet, no cards and is not folded |
| Players.Player.AddCard | src/player.rs:44-46 | the card is appended; chips, bet and fold are unchanged |
| Players.Player.ClearCards | src/player.rs:48-50 | the hand becomes empty; chips, bet and fold are unchanged |
| Players.Player.PlaceBet | src/player.rs:53-61 | it succeeds exactly when the amount is affordable, moves the amount from chips to bet, changes nothing on failure, and keeps chips plus bet |
| Players.Player.Fold | src/player.rs:64-66 | only the fold flag changes |
| Players.Player.ResetForNewHand | src/player.rs:69-73 | cards, bet and fold are cleared; chips are unchanged |
| Players.Player.Bet | src/player.rs:100-105 | it moves exactly the smaller of the amount and the chips, leaves chips at 0 when short, and keeps chips plus bet |
| Players.StatusRelations | src/player.rs:75-97 | all-in and eliminated exclude each other; a player can act exactly when unfolded with chips; a player who can bet a positive amount can act |
| BettingUi.HumanPlayerInput.Default | src/betting_ui.rs:42-49 | no pending action and a raise amount of 20 |
| Betting.BettingRound.Default | src/betting.rs:27-37 | bet 0, minimum raise 10, empty queue, pot 0, not complete |
| Betting.BettingRound.constructor | src/betting.rs:40-48 | bet and minimum raise are twice the small blind; the queue is the given ids; pot 0, not complete |
| Betting.BettingRound.Restart | src/betting.rs:40-48 | the Setup phase's replacement of the round by `BettingRound::new`, with the same state as the constructor |
| Betting.BettingRound.ResetForNewRound | src/betting.rs:50-55 | bet 0, new queue, not complete; pot and minimum raise unchanged |
| Betting.BettingRound.PeekNextPlayer | src/betting.rs:61-63 | the next seat is the last id in the queue, and None exactly when the queue is empty |
| Betting.BettingRound.NextPlayer | src/betting.rs:65-74 | it pops and returns the last id; on an empty queue it returns None and marks the round complete |
| Betting.CallAmount | src/betting.rs:193 | the saturating difference: zero exactly when the seat has matched the bet, and enough to match it otherwise |
| Betting.ApplyAction | src/betting.rs:179-228 | every applied action keeps chips plus pot and chips plus bet; only Fold folds; the raise underflow happens exactly when the raise is affordable yet below the seat's earlier bet |
| Betting.FoldAndCheck | src/betting.rs:185-191 | Fold only sets the fold flag; Check changes nothing |
| Betting.CallPays | src/betting.rs:192-207 | a call moves the smaller of the owed amount and the chips into the pot; a short call leaves 0 chips; a covered call matches the bet |
| Betting.RaiseEffect | src/betting.rs:208-226 | the raise underflows exactly when the stack covers the total but the seat's bet exceeds it; otherwise with chips for the total the seat pays the difference, the seat's and round's bets become the total and the minimum raise the amount, and without them the seat goes all-in and the round's bet and minimum raise stay |
| Betting.RaiseUnderflowExample | src/betting.rs:209-211 | a seat whose earlier bet exceeds the new total makes the subtraction underflow |
| Betting.ProcessPlayerAction | src/betting.rs:179-228 | the seat and round end as `ApplyAction` says; the queue, the completion flag and the cards are untouched |
| Betting.MakeAiDecision | src/betting.rs:78-93 | Check exactly when nothing is owed, Call exactly when the owed amount is at most a quarter of the chips, otherwise Fold; never a raise |
| Betting.AiDecisionOutcome | src/betting.rs:78-93 | the fallback AI's action always applies, leaves the seat folded or matched, and spends at most a quarter of its chips |
| Betting.ActiveCount | src/betting.rs:239-242 | the count of unfolded seats is zero exactly when every seat has folded |
| Betting.CheckBettingRoundComplete | src/betting.rs:231-261 | a complete round stays complete; otherwise it becomes complete exactly when at most one seat is unfolded, or the queue is empty and every unfolded seat has matched or is all-in |
| Betting.FirstSeat | src/betting.rs:123-131 | the first seat with the id, unfolded when asked, or None when there is none |
| Betting.FirstSeatFirst | src/betting.rs:123-173 | the action goes to the first seat with the id, at or before the seat that chose it |
| Betting.FindSeat | src/betting.rs:123-131 | the search loop finds `FirstSeat` |
| Betting.ChosenAction | src/betting.rs:133-162 | a human seat gives its pending action; an AI seat always gives an action, the fallback decision when it has no advanced AI |
| Betting.AiPlayerSystem | src/betting.rs:96-176 | nothing changes outside a betting phase, on a complete round, an empty queue, a missing seat or a human without a pending action; otherwise the queue is popped once, a human's pending action is taken, and only the first seat with the id is changed: its chips, bet and fold as `ApplyAction` says, its hole cards kept |
| GameStates.GameData.Default | src/game_state.rs:72-82 | current player 0, pot 0, bet 0, no community cards, round 1 |
| GameStates.GameData.NewRound | src/game_state.rs:196-203 | the round number goes up by one; pot, bet, current player and community cards are cleared |
| GameStates.SeatAfter | src/game_state.rs:55-63 | the seat k places after the dealer, modulo the number of players, is a valid seat |
| GameStates.ButtonAfterIsSeatAfter | src/game_state.rs:65-69 | k advances of the button land k seats after the start |
| GameStates.ButtonGoesRound | src/game_state.rs:65-69 | n advances bring the button back to its starting seat |
| GameStates.GamePosition.Default | src/game_state.rs:43-52 | dealer 0, small blind 10, big blind 20, three players |
| GameStates.GamePosition.SmallBlindPlayer | src/game_state.rs:55-58 | the small blind is one seat after the dealer |
| GameStates.GamePosition.BigBlindPlayer | src/game_state.rs:60-63 | the big blind is two seats after the dealer |
| GameStates.GamePosition.AdvanceDealerButton | src/game_state.rs:65-69 | the button moves one seat on, stays below the player count, and the blind amounts stay |
| GameStates.BlindsRotate | src/game_state.rs:55-69 | moving one seat on twice equals moving two seats on, so after the button moves the old big-blind seat becomes the small blind |
| GameStates.DefaultTable | src/game_state.rs:142-175 | on the default table the blinds are seats 1 and 2, and the button goes 1, 2, 0 |
| Controller.GameController.Default | src/game_controller.rs:15-22 | automatic advance starts on |
| Controller.GameController.ToggleAutoAdvance | src/game_controller.rs:379-391 | a space press flips automatic advance; otherwise nothing changes |
| Controller.ActiveIds | src/game_controller.rs:99-104 | the ids of the unfolded seats, one per unfolded seat |
| Controller.SeatOfId | src/game_controller.rs:407-408 | the first seat with the id, or None when no seat has it |
| Controller.SeatOfIdIsFirstSeat | src/game_controller.rs:407-408 | the blind loop and the betting loop find the same seat |
| Controller.PayBlind | src/game_controller.rs:407-416 | the seat pays the smaller of the blind and its chips into the pot, and chips plus pot is kept |
| Controller.AfterBlinds | src/game_controller.rs:394-431 | the small blind then the big blind; chips plus pot is kept |
| Controller.PostBlind | src/game_controller.rs:406-416 | one blind loop: stacks and pot end as `PayBlind` says; bets, folds and cards are untouched |
| Controller.PostBlinds | src/game_controller.rs:394-431 | stacks and pot end as `AfterBlinds` says; the table's chips plus pot are kept; the table's bet is untouched |
| Controller.CountWithChips | src/game_controller.rs:225 | the number of seats with chips is at most the number of seats |
| Controller.CountWithChipsBounds | src/game_controller.rs:225 | the count is zero exactly when every stack is empty and equals the number of seats exactly when none is |
| Controller.DealHoleCards | src/game_controller.rs:88-95 | with enough cards every seat gets the two cards at its depth from the top; the deck keeps its remaining prefix; stacks, bets and folds are untouched |
| Controller.DealTwoTo | src/game_controller.rs:89-95 | one turn of the dealing loop: with two cards left the seat gets the top card then the next, the deck keeps its prefix less those two, and the seat's stack, bet and fold stay |
| Controller.DealCommunity | src/game_controller.rs:137-141 | up to `count` cards come off the top into the community cards in the order dealt, as far as the deck lasts |
| Controller.Contenders | src/game_controller.rs:280-285 | the (id, evaluation) list has no more entries than there are seats |
| Controller.ContendersContents | src/game_controller.rs:280-290 | every unfolded seat holding cards is in the list, and the list is empty exactly when no seat is |
| Controller.ContenderFrom | src/game_controller.rs:280-285 | every entry comes from an unfolded seat holding cards |
| Controller.FirstBestSpec | src/game_controller.rs:292-313 | the head of the stable best-first sort is an entry no other beats, and every entry before it is strictly worse |
| Controller.ShowdownWinnerIsFirstBest | src/game_controller.rs:276-313 | the one-pass winner equals the head of the sorted list |
| Controller.WinnerIsBest | src/game_controller.rs:276-313 | there is no winner exactly when no seat is in the showdown; otherwise the winner is such a seat and has a maximal evaluation |
| Controller.CollectContenders | src/game_controller.rs:277-285 | the collecting loop builds `Contenders` |
| Controller.SortedHead | src/game_controller.rs:292-313 | the first entry of the stable sort is `FirstBest` |
| Controller.Award | src/game_controller.rs:320-332 | only the winner's stack grows, by the pot, and the chip sum grows by exactly the pot |
| Controller.PayWinner | src/game_controller.rs:320-332 | stacks end as `Award` says; bets, folds and cards are untouched |
| Controller.AwardPot | src/game_controller.rs:320-343 | the winner is paid and the button moves one seat on |
| Controller.DetermineWinner | src/game_controller.rs:276-344 | with no seat in the showdown nothing changes, the button included; otherwise exactly the first best seat gains the pot and the button advances |
| Controller.ChooseWinner | src/game_controller.rs:277-313 | the winner is `ShowdownWinner` and is the id of some seat |
| PhaseMachine.Stage | src/game_state.rs:13-23 | the phases' order, Setup first and GameOver last |
| PhaseMachine.NextPhase | src/game_controller.rs:63-271 | phases only move forward within a hand; Setup follows exactly GameOver with more than one stack; betting phases other than Flop move on only when the round is complete; a Showdown before the river needs at most one unfolded seat |
| PhaseMachine.FullHand | src/game_controller.rs:63-271 | an example trace: a hand with two active players goes through every phase and back to Setup; Turn and River each take two steps, one dealing a card and one closing the round |
| PhaseMachine.GameOverIsFinal | src/game_controller.rs:223-254 | with at most one stack left, GameOver never changes |
| PhaseMachine.HumanToActNow | src/game_controller.rs:40-57 | the pause check loop computes `PausedForHuman` |
| PhaseMachine.ClearSeats | src/game_controller.rs:68-73 | every seat loses its cards, bet and fold; stacks are untouched |
| PhaseMachine.ClearSeat | src/game_controller.rs:69-72 | one seat is `Cleared` and keeps its stack |
| PhaseMachine.SetupHand | src/game_controller.rs:63-82 | `SetupEffect`: the deck is a permutation of the full deck, the table is the next round's, the seats are cleared, and the round is `new(ids, 10)` |
| PhaseMachine.DealingPhase | src/game_controller.rs:84-113 | `DealingEffect`: blinds posted into the pot and two cards dealt off the top as specified, the deck keeping the rest, every bet and fold kept, then a new round over the unfolded ids, the big blind as the table's bet, and round number, current player and community cards kept |
| PhaseMachine.BlindsAndHoleCards | src/game_controller.rs:86-95 | `BlindsAndCardsDealt`: blinds then hole cards, the deck keeping what is left, every bet and fold kept, no seat folded or unfolded, and the rest of the table kept |
| PhaseMachine.ClosePreFlop | src/game_controller.rs:115-133 | the phase is `NextPhase`; `CloseEffect`: on a complete round the round's pot becomes the table's pot, and nothing else on the table changes |
| PhaseMachine.FlopPhase | src/game_controller.rs:135-156 | `DealStreetEffect` with three cards: the top three of the deck in dealing order, the deck keeping the rest, a new round over the unfolded ids, pot, bet, round number and current player kept, then Turn |
| PhaseMachine.StreetPhase | src/game_controller.rs:158-212 | the phase is `NextPhase`; with 3 (Turn) or 4 (River) community cards `DealStreetEffect` with one card, the rest of the table kept; otherwise `CloseEffect` with the deck and round untouched |
| PhaseMachine.GameStateController | src/game_controller.rs:25-274 | nothing changes when automatic advance is off, when a human is to act in a betting phase, or when the timer has not fired; otherwise the phase becomes `NextPhase` and the state is the phase's `PhaseEffect` |
| PhaseMachine.AdvancePhase | src/game_controller.rs:62-272 | the phase returned is `NextPhase` of the state on entry, and the state left is `PhaseEffect`: each phase's effect, with what it leaves alone |
| PhaseMachine.HandStartStep | src/game_controller.rs:63-113 | Setup and Dealing: `NextPhase` and `PhaseEffect`, the button untouched |
| PhaseMachine.BettingPhaseStep | src/game_controller.rs:115-212 | the four betting phases: `NextPhase` and `PhaseEffect`, with each deal keeping pot, bet, round number and current player, and seats and button untouched |
| PhaseMachine.HandEndStep | src/game_controller.rs:214-271 | Showdown and GameOver: `NextPhase` and `PhaseEffect`, deck, table and round untouched |
| AiPlayer.HandStrength.Level | src/ai_player.rs:55-60 | the strength buckets are ordered Weak to VeryStrong |
| AiPlayer.PreflopStrength | src/ai_player.rs:132-165 | not two cards is Weak; pairs are Strong from 10 and Medium from 7; unpaired cards are Medium exactly when queen-ten or better; never VeryStrong |
| AiPlayer.StrengthOfEvaluation | src/ai_player.rs:105-128 | FullHouse and up are VeryStrong; trips, straight and flush Strong; two pair, and one pair from 10, Medium |
| AiPlayer.StrengthMonotone | src/ai_player.rs:105-128 | a better evaluation never lands in a weaker bucket |
| AiPlayer.EvaluateHandStrength | src/ai_player.rs:96-129 | fewer than three community cards use the pre-flop rule, otherwise the bucket of the evaluation |
| AiPlayer.BeginnerDecision | src/ai_player.rs:179-232 | fold when the call is unaffordable, check when nothing is owed, then each bucket's call threshold or raise |
| AiPlayer.BeginnerBounds | src/ai_player.rs:198-222 | a beginner raise is at most a quarter of the chips, and a Medium call implies a Strong call |
| AiPlayer.IntermediateDecision | src/ai_player.rs:235-317 | fold when unaffordable; the value bet or check when nothing is owed; the VeryStrong raise or call; raises at most a third of the chips; a Weak call owes at most the minimum raise |
| AiPlayer.BaseAdvancedDecision | src/ai_player.rs:63-90 | the decision never calls an unaffordable bet and never raises more than a third of the chips |
| Teaching.Prefix | src/teaching.rs:54-78 | each explanation kind has its own non-empty prefix |
| Teaching.PrefixInjective | src/teaching.rs:54-78 | different kinds have different prefixes |
| Teaching.RecordMistake | src/teaching.rs:72-77 | a new tip is appended once; a shown tip leaves the list as it is; the list never gains a duplicate |
| Teaching.RecordMistakeIdempotent | src/teaching.rs:73 | recording the same tip twice is the same as once |
| Teaching.TeachingState.Default | src/teaching.rs:27-40 | tutorial mode on, no explanation, no popup, empty mistake list and message set |
| Teaching.TeachingState.ShowExplanation | src/teaching.rs:54-82 | a shown tip changes nothing; any other explanation sets the prefixed message and the popup; mistakes are recorded once |
| Teaching.TeachingState.HighlightValidActions | src/teaching.rs:273-336 | with nothing changed nothing happens; otherwise the tracked phase and player update, the message set is cleared only on a phase change, and the turn hint is added when a human is to act in a betting phase |
| Teaching.FirstHuman | src/teaching.rs:307 | the first human seat, or None when there is none |
| Teaching.AnalyzeStartingHand | src/teaching.rs:385-434 | the verdict for every two-card hand: pairs by rank band, ace-high by the low card, broadways, suited draws, weak hands; anything but two cards waits |
| Teaching.TeacherAgreesWithAi | src/teaching.rs:385-434 | a weak verdict is a Weak pre-flop strength, an excellent pair is Strong, and every Strong hand is an excellent or good pair |
| TouchInput.ToPlayerAction | src/touch_input.rs:8-19 | Fold, Check and Call map to themselves; Raise to Raise(20); the two adjusters to Raise(0) |
| TouchInput.RaiseAfter | src/touch_input.rs:115-123 | Increase adds 5 up to 200, Decrease takes 5 down to 5, and other buttons keep the amount |
| TouchInput.RaiseStaysInRange | src/touch_input.rs:115-123 | any sequence of presses keeps an amount in 5..200 within 5..200 |
| TouchInput.DefaultRaiseInRange | src/touch_input.rs:115-123 | from the default 20, any presses keep the amount in 5..200 |
| TouchInput.HandleBettingAction | src/touch_input.rs:109-130 | the adjusters change only the amount; Raise queues Raise(amount); the others queue their action |

## Left out

- Bevy UI, layout, rendering, animation, audio, haptics, app lifecycle and
  logging (`info!`, `error!`) have no counterpart. The model is the rules
  engine only.
- The frame timer and its durations are reduced to a `timerFired` input.
  The GameOver reset of every stack to 1000 (src/game_controller.rs:241-254)
  is behind a timer that has just been created, so it can never fire. The
  model keeps GameOver unchanged there, and `GameOverIsFinal` states it.
- The random generator is not modelled. `Shuffle` takes any swap partner,
  so its contract covers every outcome.
- Floating-point code is not modelled. The pot odds, `estimate_hand_equity`
  and the equity comparisons of `intermediate_decision` become the four
  boolean answers of `EquityTests`: `strongEnough`, `mediumEnough` and
  `weakEnough` for the equity-against-pot-odds tests, and `aggressiveLate`
  for `personality.aggression > 0.4 && position > players_in_hand / 2`
  (src/ai_player.rs:288), which joins a float test with an integer
  position test. The random personality adjustment of
  `make_advanced_ai_decision` is not modelled, so `AiPlayerSystem` takes
  the advanced decision as an input.
- Touch hit-testing, swipes and gesture controls are not modelled
  (src/touch_input.rs:22-107, 137-180).
- Integers are unbounded, so u32 overflow of additions and
  multiplications is not modelled: `chips += pot`, `round_number += 1`,
  `small_blind * 2` (src/betting.rs:42-43) and `min_raise * 2`
  (src/ai_player.rs:256).
- The one u32 subtraction that can underflow, the raise's
  `total_bet - player.current_bet` at src/betting.rs:211, is detected but
  its outcome is not modelled. A debug build panics there. A release
  build wraps: the seat gets `current_bet - total_bet` back out of the
  pot, and both its bet and the round's bet become the total. The model
  returns the `Underflow` outcome and changes no stakes instead, while
  `AiPlayerSystem` has already taken the seat off the queue, so the
  seat's turn is used up. `RaiseEffect` states when it happens and
  `RaiseUnderflowExample` shows an input that reaches it.
- `evaluate_five_card_hand` counts ranks in a `HashMap` and sorts its
  entries. The model tallies ranks in first-seen order and sorts the groups
  by insertion. The two agree because `CountGroups` is proved canonical
  (`GroupsUnique`).
- ECS entities are distinct. The methods that loop over players therefore
  require `Distinct(players)`.
- Dividing by zero players panics in the source. `GamePosition`'s seat
  functions therefore require `totalPlayers > 0`.
- The Setup phase assigns a fresh `BettingRound::new` to the shared
  resource. Since the resource is one object, the model resets it in place
  with `Restart`, giving it the constructor's state.
- The showdown's sort is not modelled as a sort. `SortedHead` takes the
  first of the best evaluations, which is the head a stable best-first
  sort produces. The unused `player_type` field of its tuples is dropped.
- `Controller.DealCommunity` covers the Flop, Turn and River deals; the
  Turn test `!is_empty() && len() == 3` is the same as `len() == 3`.
- `AppState`, `debug_game_state`, `total_invested` and `AIPersonality` are
  display or configuration only and are not modelled.
- The teaching module's display text is not modelled. The model keeps each
  prefix and the verdict as a datatype, not the formatted wording.
- The seven-card example of AA with KKQJT is not proved as a concrete
  instance. `EvaluateHandSpec` states the general maximum it is an
  instance of.
- `Player::clear_hand`, called at src/game_controller.rs:70 and 246, is
  not defined in src/player.rs, which defines `clear_cards` (line 48).
  The model takes it to be `clear_cards`.
- `GamePosition::get_betting_order`, `GameData::add_to_pot` and
  `GameData::next_player` are called by the tests in src/game_state.rs
  but are not defined there. `betting_ui::handle_raise_adjustment`,
  named in src/lib.rs, is not defined in src/betting_ui.rs. None is
  modelled.
- DealHoleCards: the hole cards are stated only when the deck holds two
  cards per seat. Setup leaves a full 52-card deck, so every table of up
  to 26 seats is covered; what a shorter deck deals is left unspecified.
