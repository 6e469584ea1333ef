/** One betting round (src/betting.rs): the queue of seats still to act,
    the chips an action moves, when the round is over, the fallback AI and
    the step that lets the seat at the head of the queue act. */
module Betting {
  import opened Common
  import opened Actions
  import opened Players
  import opened GameStates
  import opened BettingUi

  /** `BettingRound`. The seats to act are taken from the END of
      `playersToAct`. */
  class BettingRound {
    var currentBet: nat
    var minRaise: nat
    var playersToAct: seq<nat>
    var bettingComplete: bool
    var pot: nat

    /** `BettingRound::default`. */
    constructor Default()
      ensures currentBet == 0 && minRaise == 10 && playersToAct == []
      ensures !bettingComplete && pot == 0
    {
      currentBet := 0;
      minRaise := 10;
      playersToAct := [];
      bettingComplete := false;
      pot := 0;
    }

    /** `BettingRound::new`: the big blind, twice the small blind, is both
        the bet to match and the minimum raise. */
    constructor (playerIds: seq<nat>, smallBlind: nat)
      ensures currentBet == 2 * smallBlind && minRaise == 2 * smallBlind
      ensures playersToAct == playerIds && !bettingComplete && pot == 0
    {
      currentBet := smallBlind * 2;
      minRaise := smallBlind * 2;
      playersToAct := playerIds;
      bettingComplete := false;
      pot := 0;
    }

    /** Overwriting the round with `BettingRound::new(playerIds, smallBlind)`
        in place, as the controller does at the start of a hand. */
    method Restart(playerIds: seq<nat>, smallBlind: nat)
      modifies this
      ensures currentBet == 2 * smallBlind && minRaise == 2 * smallBlind
      ensures playersToAct == playerIds && !bettingComplete && pot == 0
    {
      currentBet := smallBlind * 2;
      minRaise := smallBlind * 2;
      playersToAct := playerIds;
      bettingComplete := false;
      pot := 0;
    }

    /** `reset_for_new_round`: a fresh street with no bet to match; the pot
        and minimum raise carry over. */
    method ResetForNewRound(playerIds: seq<nat>)
      modifies this
      ensures currentBet == 0 && playersToAct == playerIds && !bettingComplete
      ensures pot == old(pot) && minRaise == old(minRaise)
    {
      currentBet := 0;
      playersToAct := playerIds;
      bettingComplete := false;
    }

    /** `is_complete`. */
    predicate IsComplete()
      reads this
    {
      bettingComplete || playersToAct == []
    }

    /** `peek_next_player`: the LAST seat in the queue. */
    function PeekNextPlayer(): (next: Option<nat>)
      reads this
      ensures next.None? <==> playersToAct == []
      ensures next.Some? ==> next.value == playersToAct[|playersToAct| - 1]
      ensures next.Some? ==> next.value in playersToAct
    {
      if playersToAct == [] then None else Some(playersToAct[|playersToAct| - 1])
    }

    /** `next_player`: removes and returns the seat `PeekNextPlayer`
        shows; on an empty queue marks the round complete instead. */
    method NextPlayer() returns (next: Option<nat>)
      modifies this
      ensures next == old(PeekNextPlayer())
      ensures next.Some? ==> playersToAct + [next.value] == old(playersToAct)
      ensures next.Some? ==> bettingComplete == old(bettingComplete)
      ensures next.None? ==> playersToAct == [] && bettingComplete
      ensures currentBet == old(currentBet) && minRaise == old(minRaise) && pot == old(pot)
    {
      if playersToAct == [] {
        bettingComplete := true;
        next := None;
      } else {
        next := Some(playersToAct[|playersToAct| - 1]);
        playersToAct := playersToAct[..|playersToAct| - 1];
      }
    }
  }

  /** Everything one action can read or change: the player's stack, bet
      and fold flag, and the round's bet, minimum raise and pot. */
  datatype Stakes = Stakes(chips: nat, playerBet: nat, folded: bool,
                           roundBet: nat, minRaise: nat, pot: nat)

  /** What an action leads to. `Underflow` is the raise whose payment
      `total_bet - player.current_bet` would go below zero in `u32`, which
      happens when the player's bet from an earlier street exceeds the new
      total. */
  datatype Outcome = Applied(after: Stakes) | Underflow

  /** What the player still owes to match the round's bet. */
  function CallAmount(s: Stakes): (owed: nat)
    ensures owed == 0 <==> s.playerBet >= s.roundBet
    ensures s.playerBet + owed >= s.roundBet
  {
    SatSub(s.roundBet, s.playerBet)
  }

  /** `process_player_action` on values. */
  function ApplyAction(s: Stakes, action: PlayerAction): (o: Outcome)
    ensures o.Underflow? <==>
              action.Raise? && s.chips >= s.roundBet + action.amount && s.playerBet > s.roundBet + action.amount
    ensures o.Applied? ==> o.after.chips + o.after.pot == s.chips + s.pot
    ensures o.Applied? ==> o.after.chips + o.after.playerBet == s.chips + s.playerBet
    ensures o.Applied? && !action.Fold? ==> o.after.folded == s.folded
  {
    match action
    case Fold => Applied(s.(folded := true))
    case Check => Applied(s)
    case Call =>
      var owed := CallAmount(s);
      if s.chips >= owed then
        Applied(s.(chips := s.chips - owed, playerBet := s.playerBet + owed, pot := s.pot + owed))
      else
        Applied(s.(chips := 0, playerBet := s.playerBet + s.chips, pot := s.pot + s.chips))
    case Raise(amount) =>
      var total := s.roundBet + amount;
      if s.chips >= total then
        if s.playerBet > total then Underflow
        else
          var paid := total - s.playerBet;
          Applied(s.(chips := s.chips - paid, playerBet := total, pot := s.pot + paid,
                     roundBet := total, minRaise := amount))
      else
        Applied(s.(chips := 0, playerBet := s.playerBet + s.chips, pot := s.pot + s.chips))
  }

  /** Fold only sets the flag; Check changes nothing, even when a call is
      owed. */
  lemma FoldAndCheck(s: Stakes)
    ensures ApplyAction(s, Fold) == Applied(s.(folded := true))
    ensures ApplyAction(s, Check) == Applied(s)
  {
  }

  /** A call pays what is owed, or the whole stack when that is less, and
      leaves the round's bet, minimum raise and fold flag alone. */
  lemma CallPays(s: Stakes)
    ensures ApplyAction(s, Call).Applied?
    ensures var t := ApplyAction(s, Call).after;
            t.pot - s.pot == Min(CallAmount(s), s.chips) &&
            t.playerBet == s.playerBet + Min(CallAmount(s), s.chips) &&
            (CallAmount(s) > s.chips ==> t.chips == 0) &&
            (CallAmount(s) <= s.chips ==> t.playerBet >= s.roundBet) &&
            t.roundBet == s.roundBet && t.minRaise == s.minRaise && t.folded == s.folded
  {
  }

  /** A raise by `amount` fails exactly when the stack covers the new
      total (measured against the total, not against what the player must
      add) but the player's bet already exceeds it. Otherwise a covered
      raise makes the player's bet and the round's bet the total and sets
      the minimum raise; one the stack does not cover puts the player
      all-in and leaves the round's bet and minimum raise alone. */
  lemma RaiseEffect(s: Stakes, amount: nat)
    ensures var total := s.roundBet + amount;
            ApplyAction(s, Raise(amount)).Underflow? <==> s.chips >= total && s.playerBet > total
    ensures ApplyAction(s, Raise(amount)).Applied? ==>
            var t := ApplyAction(s, Raise(amount)).after;
            var total := s.roundBet + amount;
            (s.chips >= total ==> t.chips == s.chips - (total - s.playerBet) &&
                                  t.playerBet == total && t.roundBet == total && t.minRaise == amount &&
                                  t.pot == s.pot + (total - s.playerBet)) &&
            (s.chips < total ==> t.chips == 0 && t.playerBet == s.playerBet + s.chips &&
                                 t.pot == s.pot + s.chips &&
                                 t.roundBet == s.roundBet && t.minRaise == s.minRaise)
  {
  }

  /** A bet left over from an earlier street larger than the new total
      makes the raise payment negative. */
  lemma RaiseUnderflowExample()
    ensures ApplyAction(Stakes(100, 40, false, 0, 20, 60), Raise(20)) == Underflow
  {
  }

  /** The current seat's `Stakes`. */
  function StakesOf(p: Player, r: BettingRound): (s: Stakes)
    reads p, r
    ensures s.chips == p.chips && s.playerBet == p.currentBet && s.folded == p.hasFolded
    ensures s.roundBet == r.currentBet && s.minRaise == r.minRaise && s.pot == r.pot
  {
    Stakes(p.chips, p.currentBet, p.hasFolded, r.currentBet, r.minRaise, r.pot)
  }

  /** `process_player_action`. Returns false, changing nothing, where the
      source's raise would underflow. */
  method ProcessPlayerAction(player: Player, action: PlayerAction, round: BettingRound) returns (applied: bool)
    modifies player, round
    ensures applied <==> ApplyAction(old(StakesOf(player, round)), action).Applied?
    ensures applied ==> StakesOf(player, round) == ApplyAction(old(StakesOf(player, round)), action).after
    ensures !applied ==> StakesOf(player, round) == old(StakesOf(player, round))
    ensures player.holeCards == old(player.holeCards)
    ensures round.playersToAct == old(round.playersToAct) && round.bettingComplete == old(round.bettingComplete)
  {
    applied := true;
    match action
    case Fold =>
      player.hasFolded := true;
    case Check =>
    case Call =>
      var owed := SatSub(round.currentBet, player.currentBet);
      if player.chips >= owed {
        player.chips := player.chips - owed;
        player.currentBet := player.currentBet + owed;
        round.pot := round.pot + owed;
      } else {
        var allIn := player.chips;
        player.currentBet := player.currentBet + allIn;
        round.pot := round.pot + allIn;
        player.chips := 0;
      }
    case Raise(amount) =>
      var total := round.currentBet + amount;
      if player.chips >= total {
        if player.currentBet > total {
          applied := false;
        } else {
          var paid := total - player.currentBet;
          player.chips := player.chips - paid;
          player.currentBet := total;
          round.pot := round.pot + paid;
          round.currentBet := total;
          round.minRaise := amount;
        }
      } else {
        var allIn := player.chips;
        player.currentBet := player.currentBet + allIn;
        round.pot := round.pot + allIn;
        player.chips := 0;
      }
  }

  /** `make_ai_decision`, on the three numbers it reads: fold what cannot
      be paid, check when nothing is owed, call up to a quarter of the
      stack, fold anything dearer. It never raises. */
  function MakeAiDecision(chips: nat, playerBet: nat, roundBet: nat): (a: PlayerAction)
    ensures !a.Raise?
    ensures a == Check <==> playerBet >= roundBet
    ensures a == Call <==> playerBet < roundBet && roundBet - playerBet <= chips / 4
    ensures a == Fold <==> playerBet < roundBet && roundBet - playerBet > chips / 4
  {
    var owed := SatSub(roundBet, playerBet);
    if owed > chips then Fold
    else if owed == 0 then Check
    else if owed <= chips / 4 then Call
    else Fold
  }

  /** After the fallback AI acts the seat has either folded or matched the
      round's bet, keeping at least three quarters of its stack. */
  lemma AiDecisionOutcome(s: Stakes)
    ensures ApplyAction(s, MakeAiDecision(s.chips, s.playerBet, s.roundBet)).Applied?
    ensures var t := ApplyAction(s, MakeAiDecision(s.chips, s.playerBet, s.roundBet)).after;
            (t.folded || t.playerBet >= t.roundBet) && 4 * t.chips >= 3 * s.chips &&
            t.roundBet == s.roundBet
  {
  }

  /** The number of seats that have not folded. */
  function ActiveCount(players: seq<Player>): (n: nat)
    reads players
    ensures n <= |players|
    ensures n == 0 <==> forall i :: 0 <= i < |players| ==> players[i].hasFolded
  {
    if players == [] then 0
    else (if players[0].hasFolded then 0 else 1) + ActiveCount(players[1..])
  }

  /** Every seat still in the hand has matched `bet` or is out of chips. */
  predicate AllMatched(players: seq<Player>, bet: nat)
    reads players
  {
    forall i :: 0 <= i < |players| && !players[i].hasFolded ==>
      players[i].currentBet >= bet || players[i].chips == 0
  }

  /** The condition under which `check_betting_round_complete` closes an
      open round. */
  predicate RoundSettled(players: seq<Player>, round: BettingRound)
    reads players, round
  {
    ActiveCount(players) <= 1 || (round.playersToAct == [] && AllMatched(players, round.currentBet))
  }

  /** `check_betting_round_complete`: a closed round stays closed; an open
      one closes exactly when at most one seat is in the hand, or the
      queue is empty and every seat in the hand has matched or is all-in. */
  method CheckBettingRoundComplete(players: seq<Player>, round: BettingRound)
    modifies round
    ensures old(round.bettingComplete) ==> round.bettingComplete
    ensures !old(round.bettingComplete) ==> (round.bettingComplete <==> old(RoundSettled(players, round)))
    ensures round.currentBet == old(round.currentBet) && round.minRaise == old(round.minRaise)
    ensures round.pot == old(round.pot) && round.playersToAct == old(round.playersToAct)
  {
    if round.bettingComplete {
      return;
    }
    if ActiveCount(players) <= 1 {
      round.bettingComplete := true;
      return;
    }
    var bet := round.currentBet;
    if round.playersToAct == [] && AllMatched(players, bet) {
      round.bettingComplete := true;
    }
  }

  /** The index of the first seat with this id, among all seats or only
      those still in the hand. */
  function FirstSeat(players: seq<Player>, id: nat, activeOnly: bool): (k: Option<nat>)
    reads players
    ensures k.Some? ==> k.value < |players| && players[k.value].id == id &&
                        (activeOnly ==> !players[k.value].hasFolded)
    ensures k.Some? ==> forall j :: 0 <= j < k.value ==>
                          !(players[j].id == id && (activeOnly ==> !players[j].hasFolded))
    ensures k.None? ==> forall j :: 0 <= j < |players| ==>
                          !(players[j].id == id && (activeOnly ==> !players[j].hasFolded))
    decreases |players|
  {
    if players == [] then None
    else if players[0].id == id && (activeOnly ==> !players[0].hasFolded) then Some(0)
    else
      var rest := FirstSeat(players[1..], id, activeOnly);
      if rest.None? then None else Some(rest.value + 1)
  }

  /** Any seat with the id comes no earlier than the first one found. */
  lemma FirstSeatFirst(players: seq<Player>, id: nat)
    requires FirstSeat(players, id, true).Some?
    ensures FirstSeat(players, id, false).Some?
    ensures FirstSeat(players, id, false).value <= FirstSeat(players, id, true).value
  {
  }

  /** The seat the source searches for with a loop that stops at the first
      match. */
  method FindSeat(players: seq<Player>, id: nat, activeOnly: bool) returns (k: Option<nat>)
    ensures k == FirstSeat(players, id, activeOnly)
  {
    var i := 0;
    while i < |players|
      invariant 0 <= i <= |players|
      invariant forall j :: 0 <= j < i ==> !(players[j].id == id && (activeOnly ==> !players[j].hasFolded))
    {
      if players[i].id == id && (activeOnly ==> !players[i].hasFolded) {
        return Some(i);
      }
      i := i + 1;
    }
    return None;
  }

  /** The action the seat at the head of the queue takes, if it can act
      now: an AI seat decides at once (by `advanced` when it carries the
      advanced AI, otherwise by the fallback AI); a human seat plays its
      pending choice or, with none, waits. */
  function ChosenAction(seat: Player, round: BettingRound, pending: Option<PlayerAction>,
                        advanced: Option<PlayerAction>): (a: Option<PlayerAction>)
    reads seat, round
    ensures seat.kind == Human ==> a == pending
    ensures seat.kind == AI ==> a.Some?
    ensures seat.kind == AI && advanced.None? ==>
              a == Some(MakeAiDecision(seat.chips, seat.currentBet, round.currentBet))
  {
    match seat.kind
    case AI =>
      if advanced.Some? then advanced
      else Some(MakeAiDecision(seat.chips, seat.currentBet, round.currentBet))
    case Human => pending
  }

  /** `ai_player_system`: outside the betting phases, on a closed round,
      on an empty queue, when the queue's seat is not in the hand, or when
      that seat is a human with nothing pending, nothing changes. Otherwise
      the chosen action is taken (a human's pending choice is consumed),
      the seat is popped from the queue and the action is applied to the
      first seat with that id. `advanced` stands for the decision of an
      AI seat carrying the advanced AI; `None` for a seat without it. */
  method AiPlayerSystem(players: seq<Player>, round: BettingRound, phase: GameState,
                        input: HumanPlayerInput, advanced: Option<PlayerAction>)
    returns (acted: Option<PlayerAction>)
    modifies players, round, input
    ensures acted.None? ==> round.playersToAct == old(round.playersToAct)
    ensures acted.None? ==> unchanged(round, input) && forall i :: 0 <= i < |players| ==> unchanged(players[i])
    ensures acted.Some? <==>
              IsBettingPhase(phase) && !old(round.bettingComplete) && old(round.playersToAct) != [] &&
              var seat := old(FirstSeat(players, round.playersToAct[|round.playersToAct| - 1], true));
              seat.Some? && old(ChosenAction(players[seat.value], round, input.pendingAction, advanced)).Some?
    ensures acted.Some? ==>
              var id := old(round.playersToAct[|round.playersToAct| - 1]);
              var seat := old(FirstSeat(players, id, true)).value;
              var target := old(FirstSeat(players, id, false)).value;
              acted == old(ChosenAction(players[seat], round, input.pendingAction, advanced)) &&
              round.playersToAct == old(round.playersToAct[..|round.playersToAct| - 1]) &&
              round.bettingComplete == old(round.bettingComplete) &&
              (players[seat].kind == Human ==> input.pendingAction == None) &&
              (players[seat].kind == AI ==> input.pendingAction == old(input.pendingAction)) &&
              input.raiseAmount == old(input.raiseAmount) &&
              var o := ApplyAction(old(StakesOf(players[target], round)), acted.value);
              (o.Applied? ==> StakesOf(players[target], round) == o.after) &&
              (o.Underflow? ==> StakesOf(players[target], round) == old(StakesOf(players[target], round))) &&
              players[target].holeCards == old(players[target].holeCards) &&
              forall i :: 0 <= i < |players| && players[i] != players[target] ==> unchanged(players[i])
  {
    acted := None;
    if !IsBettingPhase(phase) || round.bettingComplete {
      return;
    }
    var next := round.PeekNextPlayer();
    if next.None? {
      return;
    }
    var id := next.value;
    var seat := FindSeat(players, id, true);
    if seat.None? {
      return;
    }
    var actor := players[seat.value];
    var action: PlayerAction;
    if actor.kind == Human {
      if input.pendingAction.None? {
        return;
      }
      action := input.pendingAction.value;
      input.pendingAction := None;
    } else if advanced.Some? {
      action := advanced.value;
    } else {
      action := MakeAiDecision(actor.chips, actor.currentBet, round.currentBet);
    }
    acted := Some(action);
    var popped := round.NextPlayer();
    FirstSeatFirst(players, id);
    var target := FindSeat(players, id, false);
    var applied := ProcessPlayerAction(players[target.value], action, round);
  }
}
