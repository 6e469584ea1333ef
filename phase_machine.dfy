/** `game_state_controller` of src/game_controller.rs: one call per frame
    moves the hand through its phases. The frame timer is reduced to
    whether it has fired this frame; the phase set through `NextState` is
    returned. */
module PhaseMachine {
  import opened Common
  import opened Cards
  import opened Players
  import opened GameStates
  import opened Betting
  import opened Controller

  /** The position of a phase in the order of play. */
  function Stage(s: GameState): (n: nat)
    ensures n < 8
    ensures n == 0 <==> s == Setup
    ensures n == 7 <==> s == GameOver
  {
    match s
    case Setup => 0
    case Dealing => 1
    case PreFlop => 2
    case Flop => 3
    case Turn => 4
    case River => 5
    case Showdown => 6
    case GameOver => 7
  }

  /** The phase the controller sets once the timer has fired, from what it
      reads at that moment: whether the betting round is complete, how
      many seats have not folded, how many community cards are out and how
      many seats have chips. The Turn and River phases first deal their
      card and stay; only afterwards does a complete round move them on. */
  function NextPhase(phase: GameState, complete: bool, active: nat, community: nat, withChips: nat): (next: GameState)
    ensures phase != GameOver ==> Stage(phase) <= Stage(next)
    ensures next == Setup <==> phase == GameOver && withChips > 1
    ensures phase == GameOver && withChips <= 1 ==> next == GameOver
    ensures IsBettingPhase(phase) && phase != Flop && next != phase ==> complete
    ensures next == Showdown && phase != River && phase != Showdown ==> active <= 1
    ensures phase == Flop ==> next == Turn
    ensures phase == Showdown ==> next == GameOver
  {
    match phase
    case Setup => Dealing
    case Dealing => PreFlop
    case PreFlop =>
      if !complete then PreFlop
      else if active <= 1 then Showdown
      else Flop
    case Flop => Turn
    case Turn =>
      if community == 3 then Turn
      else if !complete then Turn
      else if active <= 1 then Showdown
      else River
    case River =>
      if community == 4 then River
      else if !complete then River
      else Showdown
    case Showdown => GameOver
    case GameOver => if withChips <= 1 then GameOver else Setup
  }

  /** A hand in which betting always completes and two seats stay in goes
      through every phase once, dealing the turn and river cards on the
      way, and a new hand starts while two seats have chips. */
  lemma FullHand(withChips: nat)
    requires withChips >= 2
    ensures NextPhase(Setup, false, 2, 0, withChips) == Dealing
    ensures NextPhase(Dealing, false, 2, 0, withChips) == PreFlop
    ensures NextPhase(PreFlop, true, 2, 0, withChips) == Flop
    ensures NextPhase(Flop, true, 2, 0, withChips) == Turn
    ensures NextPhase(Turn, true, 2, 3, withChips) == Turn
    ensures NextPhase(Turn, true, 2, 4, withChips) == River
    ensures NextPhase(River, true, 2, 4, withChips) == River
    ensures NextPhase(River, true, 2, 5, withChips) == Showdown
    ensures NextPhase(Showdown, true, 2, 5, withChips) == GameOver
    ensures NextPhase(GameOver, true, 2, 5, withChips) == Setup
  {
  }

  /** Once at most one seat has chips the game stays over, however often
      the timer fires. */
  lemma {:induction false} GameOverIsFinal(withChips: nat, steps: nat)
    requires withChips <= 1
    ensures Iterate(GameOver, withChips, steps) == GameOver
  {
    if steps > 0 {
      GameOverIsFinal(withChips, steps - 1);
    }
  }

  /** `steps` timer firings from `phase` with nothing else changing. */
  function Iterate(phase: GameState, withChips: nat, steps: nat): GameState
  {
    if steps == 0 then phase
    else NextPhase(Iterate(phase, withChips, steps - 1), false, 2, 0, withChips)
  }

  /** The controller waits for a person: in a betting phase, the seat the
      round shows next is, at the first seat carrying that id that has not
      folded, a human. */
  predicate PausedForHuman(phase: GameState, round: BettingRound, players: seq<Player>)
    reads round, players
  {
    IsBettingPhase(phase) && round.PeekNextPlayer().Some? &&
    var k := FirstSeat(players, round.PeekNextPlayer().value, true);
    k.Some? && players[k.value].kind == Human
  }

  /** The pause check at the top of `game_state_controller`. */
  method HumanToActNow(phase: GameState, round: BettingRound, players: seq<Player>) returns (paused: bool)
    ensures paused == PausedForHuman(phase, round, players)
  {
    if !IsBettingPhase(phase) {
      return false;
    }
    var current := round.PeekNextPlayer();
    if current.None? {
      return false;
    }
    var seat := FindSeat(players, current.value, true);
    paused := seat.Some? && players[seat.value].kind == Human;
  }

  /** The loop of the Setup phase: every seat loses its cards, its bet and
      its fold; its stack and id stay. */
  method ClearSeats(players: seq<Player>)
    requires Distinct(players)
    modifies players
    ensures forall i :: 0 <= i < |players| ==> Cleared(players[i])
    ensures ChipsOf(players) == old(ChipsOf(players))
  {
    ghost var stacks := ChipsOf(players);
    var i := 0;
    while i < |players|
      invariant 0 <= i <= |players|
      invariant forall j :: 0 <= j < i ==> Cleared(players[j])
      invariant forall j :: 0 <= j < |players| ==> players[j].chips == stacks[j]
    {
      ClearSeat(players[i]);
      i := i + 1;
    }
    SameStacks(players, stacks);
  }

  /** A seat with no cards, no bet and no fold. */
  predicate Cleared(p: Player)
    reads p
  {
    p.holeCards == [] && p.currentBet == 0 && !p.hasFolded
  }

  /** One turn of the Setup loop. */
  method ClearSeat(p: Player)
    modifies p
    ensures Cleared(p) && p.chips == old(p.chips)
  {
    p.ClearCards();
    p.currentBet := 0;
    p.hasFolded := false;
  }

  /** What the Setup phase leaves: a full deck in some order, the next
      round's empty table, every seat cleared of cards, bet and fold with
      its stack untouched, and a fresh betting round over all seats with
      the small blind of 10. */
  twostate predicate SetupEffect(deck: Deck, data: GameData, players: seq<Player>, round: BettingRound)
    reads deck, data, players, round
  {
    multiset(deck.cards) == multiset(FullDeck()) &&
    data.roundNumber == old(data.roundNumber) + 1 &&
    data.pot == 0 && data.currentBet == 0 && data.communityCards == [] && data.currentPlayer == 0 &&
    (forall i :: 0 <= i < |players| ==> Cleared(players[i])) &&
    ChipsOf(players) == old(ChipsOf(players)) &&
    round.playersToAct == Ids(players) && !round.bettingComplete && round.pot == 0 &&
    round.currentBet == 2 * SetupSmallBlind && round.minRaise == 2 * SetupSmallBlind
  }

  /** The Setup phase. */
  method SetupHand(deck: Deck, data: GameData, players: seq<Player>, round: BettingRound)
    requires Distinct(players)
    modifies deck, data, players, round
    ensures SetupEffect(deck, data, players, round)
  {
    deck.Reset();
    data.NewRound();
    ClearSeats(players);
    ghost var stacks := ChipsOf(players);
    round.Restart(Ids(players), SetupSmallBlind);
    assert ChipsOf(players) == stacks;
  }

  /** What paying the blinds and dealing the hole cards does to the seats
      and the deck, with the hand's pot before and after: the blinds go
      from the stacks into the pot (chips plus pot kept), every seat gets
      two cards off the top of the deck when the deck holds them, the
      deck keeps the rest, and every seat's bet and fold are as they were. */
  twostate predicate BlindsAndCardsDealt(deck: Deck, position: GamePosition, players: seq<Player>,
                                         potBefore: nat, potAfter: nat)
    requires old(position.totalPlayers) > 0
    reads deck, position, players
  {
    ChipsOf(players) == old(AfterBlinds(players, position)).0 &&
    potAfter == potBefore + old(AfterBlinds(players, position)).1 &&
    Sum(ChipsOf(players)) + potAfter == old(Sum(ChipsOf(players))) + potBefore &&
    |deck.cards| <= |old(deck.cards)| && deck.cards == old(deck.cards)[..|deck.cards|] &&
    (|old(deck.cards)| >= 2 * |players| ==>
       |deck.cards| == |old(deck.cards)| - 2 * |players| &&
       HoleCardsOf(players) == DealtTwo(old(HoleCardsOf(players)), old(deck.cards))) &&
    BetsOf(players) == old(BetsOf(players))
  }

  /** What the Dealing phase leaves: the blinds and the hole cards as
      `BlindsAndCardsDealt` says, a new street over the seats still in,
      the big blind as the bet to match, and the rest of the table as it
      was. */
  twostate predicate DealingEffect(deck: Deck, data: GameData, position: GamePosition,
                                   players: seq<Player>, round: BettingRound)
    requires old(position.totalPlayers) > 0
    reads deck, data, position, players, round
  {
    BlindsAndCardsDealt(deck, position, players, old(data.pot), data.pot) &&
    round.playersToAct == old(ActiveIds(players)) && round.currentBet == 0 && !round.bettingComplete &&
    round.pot == old(round.pot) && round.minRaise == old(round.minRaise) &&
    data.currentBet == position.bigBlindAmount && data.communityCards == old(data.communityCards) &&
    data.roundNumber == old(data.roundNumber) && data.currentPlayer == old(data.currentPlayer)
  }

  /** The Dealing phase. */
  method DealingPhase(deck: Deck, data: GameData, position: GamePosition, players: seq<Player>, round: BettingRound)
    requires position.totalPlayers > 0
    requires Distinct(players)
    modifies deck, data, players, round
    ensures DealingEffect(deck, data, position, players, round)
  {
    BlindsAndHoleCards(deck, data, position, players);
    round.ResetForNewRound(ActiveIds(players));
    data.currentBet := position.bigBlindAmount;
  }

  /** The part of the Dealing phase that moves chips and cards: blinds
      from the seats after the button, then two cards to every seat. */
  method BlindsAndHoleCards(deck: Deck, data: GameData, position: GamePosition, players: seq<Player>)
    requires position.totalPlayers > 0
    requires Distinct(players)
    modifies deck, data, players
    ensures BlindsAndCardsDealt(deck, position, players, old(data.pot), data.pot)
    ensures data.communityCards == old(data.communityCards) && data.currentBet == old(data.currentBet)
    ensures data.roundNumber == old(data.roundNumber) && data.currentPlayer == old(data.currentPlayer)
    ensures ActiveIds(players) == old(ActiveIds(players))
  {
    PostBlinds(players, position, data);
    ActiveIdsKept(players);
    ghost var bets := BetsOf(players);
    DealHoleCards(players, deck);
    SameBets(players, bets);
    ActiveIdsKept(players);
  }

  /** What closing a street's betting does to the table: a complete
      round's pot replaces the hand's pot; nothing else on the table
      changes. */
  twostate predicate CloseEffect(data: GameData, round: BettingRound)
    reads data, round
  {
    data.pot == (if old(round.IsComplete()) then round.pot else old(data.pot)) &&
    data.communityCards == old(data.communityCards) && data.currentBet == old(data.currentBet) &&
    data.roundNumber == old(data.roundNumber) && data.currentPlayer == old(data.currentPlayer)
  }

  /** The PreFlop phase: once the round is complete its pot is taken and
      the phase moves on, to the showdown when at most one seat is still
      in. */
  method ClosePreFlop(data: GameData, players: seq<Player>, round: BettingRound) returns (next: GameState)
    modifies data
    ensures next == NextPhase(PreFlop, round.IsComplete(), ActiveCount(players), |old(data.communityCards)|, 0)
    ensures CloseEffect(data, round)
  {
    if round.IsComplete() {
      data.pot := round.pot;
      next := if ActiveCount(players) <= 1 then Showdown else Flop;
    } else {
      next := PreFlop;
    }
  }

  /** What a street that deals leaves: `count` more community cards taken
      from the top of the deck, as far as it lasts, in the order dealt,
      and a new street over the seats still in. The hand's pot, bet, round
      number and current player are as they were. */
  twostate predicate DealStreetEffect(count: nat, deck: Deck, data: GameData, players: seq<Player>,
                                      round: BettingRound)
    reads deck, data, players, round
  {
    |deck.cards| <= |old(deck.cards)| &&
    deck.cards == old(deck.cards)[..|deck.cards|] &&
    |deck.cards| == |old(deck.cards)| - Min(count, |old(deck.cards)|) &&
    data.communityCards == old(data.communityCards) + Reverse(old(deck.cards)[|deck.cards|..]) &&
    data.pot == old(data.pot) && data.currentBet == old(data.currentBet) &&
    data.roundNumber == old(data.roundNumber) && data.currentPlayer == old(data.currentPlayer) &&
    round.playersToAct == ActiveIds(players) && round.currentBet == 0 && !round.bettingComplete &&
    round.pot == old(round.pot) && round.minRaise == old(round.minRaise)
  }

  /** The Flop phase: three community cards, a new street over the seats
      still in, and on to the Turn phase without waiting. */
  method FlopPhase(deck: Deck, data: GameData, players: seq<Player>, round: BettingRound) returns (next: GameState)
    modifies deck, data, round
    ensures next == Turn
    ensures DealStreetEffect(3, deck, data, players, round)
  {
    DealCommunity(deck, data, 3);
    round.ResetForNewRound(ActiveIds(players));
    next := Turn;
  }

  /** The Turn phase (and, with four cards out, the River phase): with
      three (four) community cards out, deal one more and open a new
      street, staying in the phase; otherwise close the street, and once
      the round is complete move on. */
  method StreetPhase(phase: GameState, deck: Deck, data: GameData, players: seq<Player>, round: BettingRound)
    returns (next: GameState)
    requires phase == Turn || phase == River
    modifies deck, data, round
    ensures next == NextPhase(phase, old(round.IsComplete()), ActiveCount(players), |old(data.communityCards)|, 0)
    ensures |old(data.communityCards)| == (if phase == Turn then 3 else 4) ==>
              DealStreetEffect(1, deck, data, players, round)
    ensures |old(data.communityCards)| != (if phase == Turn then 3 else 4) ==>
              CloseEffect(data, round) && unchanged(deck, round)
  {
    var cardsBefore := if phase == Turn then 3 else 4;
    if |data.communityCards| == cardsBefore {
      DealCommunity(deck, data, 1);
      round.ResetForNewRound(ActiveIds(players));
      next := phase;
    } else if round.IsComplete() {
      data.pot := round.pot;
      if phase == River {
        next := Showdown;
      } else {
        next := if ActiveCount(players) <= 1 then Showdown else River;
      }
    } else {
      next := phase;
    }
  }

  /** What the Showdown phase leaves: the pot paid to the first seat with
      a best hand and the button moved on, or, when no seat is in, the
      stacks and the button as they were. */
  twostate predicate ShowdownEffect(data: GameData, position: GamePosition, players: seq<Player>)
    requires old(position.totalPlayers) > 0
    reads data, position, players
  {
    var w := ShowdownWinner(old(Hands(players)), data.communityCards);
    (w.Some? ==> SeatOfId(players, w.value.0).Some?) &&
    ChipsOf(players) == Award(old(ChipsOf(players)), if w.Some? then SeatOfId(players, w.value.0) else None, data.pot) &&
    position.dealerButton == (if w.Some? then SeatAfter(old(position.dealerButton), 1, old(position.totalPlayers))
                              else old(position.dealerButton)) &&
    position.totalPlayers == old(position.totalPlayers) &&
    position.smallBlindAmount == old(position.smallBlindAmount) &&
    position.bigBlindAmount == old(position.bigBlindAmount) &&
    SeatsKeepHands(players)
  }

  /** The state one phase's work leaves, phase by phase, with what each
      phase leaves alone. */
  twostate predicate PhaseEffect(phase: GameState, deck: Deck, data: GameData, position: GamePosition,
                                 players: seq<Player>, round: BettingRound)
    requires old(position.totalPlayers) > 0
    reads deck, data, position, players, round
  {
    match phase
    case Setup => SetupEffect(deck, data, players, round) && unchanged(position)
    case Dealing => DealingEffect(deck, data, position, players, round) && unchanged(position)
    case PreFlop => CloseEffect(data, round) && unchanged(deck, position, round) && unchanged(players)
    case Flop => DealStreetEffect(3, deck, data, players, round) && unchanged(position) && unchanged(players)
    case Turn =>
      (if |old(data.communityCards)| == 3 then DealStreetEffect(1, deck, data, players, round)
       else CloseEffect(data, round) && unchanged(deck, round)) &&
      unchanged(position) && unchanged(players)
    case River =>
      (if |old(data.communityCards)| == 4 then DealStreetEffect(1, deck, data, players, round)
       else CloseEffect(data, round) && unchanged(deck, round)) &&
      unchanged(position) && unchanged(players)
    case Showdown => ShowdownEffect(data, position, players) && unchanged(deck, data, round)
    case GameOver => unchanged(deck, data, position, round) && unchanged(players)
  }

  /** One frame of `game_state_controller`. Nothing happens when automatic
      advance is off, when a person is to act in a betting phase, or when
      the timer has not fired; otherwise the current phase's work is done
      and the phase `NextPhase` names is set. */
  method GameStateController(ctrl: GameController, timerFired: bool, phase: GameState,
                             deck: Deck, data: GameData, position: GamePosition,
                             players: seq<Player>, round: BettingRound)
    returns (next: GameState)
    requires position.totalPlayers > 0
    requires Distinct(players)
    modifies deck, data, position, players, round
    ensures var idle := !ctrl.autoAdvance || old(PausedForHuman(phase, round, players)) || !timerFired;
            next == (if idle then phase
                     else NextPhase(phase, old(round.IsComplete()), old(ActiveCount(players)),
                                    old(|data.communityCards|), old(CountWithChips(players))))
    ensures !ctrl.autoAdvance || old(PausedForHuman(phase, round, players)) || !timerFired ==>
              unchanged(deck, data, position, round) && unchanged(players)
    ensures ctrl.autoAdvance && !old(PausedForHuman(phase, round, players)) && timerFired ==>
              PhaseEffect(phase, deck, data, position, players, round)
  {
    if !ctrl.autoAdvance {
      return phase;
    }
    if PausedForHuman(phase, round, players) || !timerFired {
      return phase;
    }
    next := AdvancePhase(phase, deck, data, position, players, round);
  }

  /** The work of one phase, once the controller has decided to act, and
      the phase that follows it. */
  method AdvancePhase(phase: GameState, deck: Deck, data: GameData, position: GamePosition,
                      players: seq<Player>, round: BettingRound)
    returns (next: GameState)
    requires position.totalPlayers > 0
    requires Distinct(players)
    modifies deck, data, position, players, round
    ensures next == NextPhase(phase, old(round.IsComplete()), old(ActiveCount(players)),
                              old(|data.communityCards|), old(CountWithChips(players)))
    ensures PhaseEffect(phase, deck, data, position, players, round)
  {
    match phase
    case Setup | Dealing =>
      next := HandStartStep(phase, deck, data, position, players, round);
    case PreFlop | Flop | Turn | River =>
      next := BettingPhaseStep(phase, deck, data, position, players, round);
    case Showdown | GameOver =>
      next := HandEndStep(phase, deck, data, position, players, round);
  }

  /** The work of the phases that open a hand: a fresh table, then the
      blinds and the hole cards. The button is left alone. */
  method HandStartStep(phase: GameState, deck: Deck, data: GameData, position: GamePosition,
                       players: seq<Player>, round: BettingRound)
    returns (next: GameState)
    requires phase == Setup || phase == Dealing
    requires position.totalPlayers > 0
    requires Distinct(players)
    modifies deck, data, players, round
    ensures next == NextPhase(phase, old(round.IsComplete()), old(ActiveCount(players)),
                              old(|data.communityCards|), old(CountWithChips(players)))
    ensures PhaseEffect(phase, deck, data, position, players, round)
  {
    if phase == Setup {
      SetupHand(deck, data, players, round);
      next := Dealing;
    } else {
      DealingPhase(deck, data, position, players, round);
      next := PreFlop;
    }
  }

  /** The work of the phases that close a hand: the showdown, then the
      check for a player left with every chip. The deck, the table and the
      betting round are left alone. */
  method HandEndStep(phase: GameState, deck: Deck, data: GameData, position: GamePosition,
                     players: seq<Player>, round: BettingRound)
    returns (next: GameState)
    requires phase == Showdown || phase == GameOver
    requires position.totalPlayers > 0
    requires Distinct(players)
    modifies position, players
    ensures next == NextPhase(phase, old(round.IsComplete()), old(ActiveCount(players)),
                              old(|data.communityCards|), old(CountWithChips(players)))
    ensures PhaseEffect(phase, deck, data, position, players, round)
  {
    if phase == Showdown {
      var _ := DetermineWinner(players, data, position);
      next := GameOver;
    } else {
      next := if CountWithChips(players) <= 1 then GameOver else Setup;
    }
  }

  /** The work of a betting phase: close the street, or deal the next
      community cards and open a new street. The seats and the button are
      left alone. */
  method BettingPhaseStep(phase: GameState, deck: Deck, data: GameData, position: GamePosition,
                          players: seq<Player>, round: BettingRound)
    returns (next: GameState)
    requires IsBettingPhase(phase)
    requires position.totalPlayers > 0
    modifies deck, data, round
    ensures next == NextPhase(phase, old(round.IsComplete()), old(ActiveCount(players)),
                              old(|data.communityCards|), old(CountWithChips(players)))
    ensures PhaseEffect(phase, deck, data, position, players, round)
  {
    match phase
    case PreFlop =>
      next := ClosePreFlop(data, players, round);
    case Flop =>
      next := FlopPhase(deck, data, players, round);
    case Turn =>
      next := StreetPhase(Turn, deck, data, players, round);
    case River =>
      next := StreetPhase(River, deck, data, players, round);
  }
}