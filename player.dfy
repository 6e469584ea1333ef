/** A seat at the table, `Player` of src/player.rs: chips, the bet in front
    of the player, hole cards and whether the player has folded. */
module Players {
  import opened Common
  import opened Cards

  datatype PlayerType = Human | AI

  /** `AIDifficulty`, carried by an AI seat. */
  datatype AIDifficulty = Beginner | Intermediate

  class Player {
    const id: nat
    const kind: PlayerType
    var chips: nat
    var holeCards: seq<Card>
    var currentBet: nat
    var hasFolded: bool

    /** `Player::new`: no cards, no bet, not folded. */
    constructor (id: nat, kind: PlayerType, chips: nat)
      ensures this.id == id && this.kind == kind && this.chips == chips
      ensures holeCards == [] && currentBet == 0 && !hasFolded
    {
      this.id := id;
      this.kind := kind;
      this.chips := chips;
      holeCards := [];
      currentBet := 0;
      hasFolded := false;
    }

    /** `add_card`: appends at the end of the hand. */
    method AddCard(card: Card)
      modifies this
      ensures holeCards == old(holeCards) + [card]
      ensures chips == old(chips) && currentBet == old(currentBet) && hasFolded == old(hasFolded)
    {
      holeCards := holeCards + [card];
    }

    /** `clear_cards`. */
    method ClearCards()
      modifies this
      ensures holeCards == []
      ensures chips == old(chips) && currentBet == old(currentBet) && hasFolded == old(hasFolded)
    {
      holeCards := [];
    }

    /** `place_bet`: refuses a bet larger than the stack and changes nothing;
        otherwise moves the amount from the stack to the bet. Either way the
        chips the player owns, stack plus bet, stay the same. */
    method PlaceBet(amount: nat) returns (placed: bool)
      modifies this
      ensures placed <==> amount <= old(chips)
      ensures placed ==> chips == old(chips) - amount && currentBet == old(currentBet) + amount
      ensures !placed ==> chips == old(chips) && currentBet == old(currentBet)
      ensures chips + currentBet == old(chips) + old(currentBet)
      ensures holeCards == old(holeCards) && hasFolded == old(hasFolded)
    {
      if amount > chips {
        placed := false;
      } else {
        chips := chips - amount;
        currentBet := currentBet + amount;
        placed := true;
      }
    }

    /** `fold`. */
    method Fold()
      modifies this
      ensures hasFolded
      ensures chips == old(chips) && currentBet == old(currentBet) && holeCards == old(holeCards)
    {
      hasFolded := true;
    }

    /** `reset_for_new_hand`: the stack is kept, everything else cleared. */
    method ResetForNewHand()
      modifies this
      ensures !hasFolded && currentBet == 0 && holeCards == []
      ensures chips == old(chips)
    {
      hasFolded := false;
      currentBet := 0;
      holeCards := [];
    }

    /** `bet`: moves as much of `amount` as the stack covers and returns
        what was moved. */
    method Bet(amount: nat) returns (actual: nat)
      modifies this
      ensures actual == Min(amount, old(chips))
      ensures actual <= amount && actual <= old(chips)
      ensures actual < amount ==> chips == 0
      ensures chips == old(chips) - actual && currentBet == old(currentBet) + actual
      ensures chips + currentBet == old(chips) + old(currentBet)
      ensures holeCards == old(holeCards) && hasFolded == old(hasFolded)
    {
      actual := if amount <= chips then amount else chips;
      chips := chips - actual;
      currentBet := currentBet + actual;
    }

    /** `is_all_in`: no chips left yet still in the hand. */
    predicate IsAllIn()
      reads this
    {
      chips == 0 && !hasFolded
    }

    /** `can_bet`. */
    predicate CanBet(amount: nat)
      reads this
    {
      !hasFolded && chips >= amount
    }

    /** `is_eliminated`: out of chips and folded. */
    predicate IsEliminated()
      reads this
    {
      chips == 0 && hasFolded
    }

    /** `can_act`: in the hand and not all-in. */
    predicate CanAct()
      reads this
    {
      !hasFolded && !IsAllIn()
    }
  }

  /** All-in and eliminated exclude each other; a player can act exactly
      when in the hand with chips left; a player who can bet a positive
      amount can act. */
  lemma StatusRelations(p: Player, amount: nat)
    ensures !(p.IsAllIn() && p.IsEliminated())
    ensures p.CanAct() <==> !p.hasFolded && p.chips > 0
    ensures p.CanBet(amount) && amount > 0 ==> p.CanAct()
    ensures p.chips == 0 ==> (p.IsAllIn() <==> !p.IsEliminated())
  {
  }
}
