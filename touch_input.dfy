/** What a button press does (src/touch_input.rs): the conversion of a
    button into an action and `handle_betting_action`. */
module TouchInput {
  import opened Common
  import opened Actions
  import opened BettingUi

  const RaiseStep: nat := 5
  const MinRaiseInput: nat := 5
  const MaxRaiseInput: nat := 200

  /** `From<BettingButtonAction> for PlayerAction`: the three plain buttons
      give their own action, the raise button a raise by 20 and the two
      adjusters a raise by 0. */
  function ToPlayerAction(b: BettingButtonAction): (a: PlayerAction)
    ensures b == FoldButton <==> a == Fold
    ensures b == CheckButton <==> a == Check
    ensures b == CallButton <==> a == Call
    ensures b == RaiseButton <==> a == Raise(DefaultRaise)
    ensures b == IncreaseRaise || b == DecreaseRaise <==> a == Raise(0)
  {
    match b
    case FoldButton => Fold
    case CheckButton => Check
    case CallButton => Call
    case RaiseButton => Raise(20)
    case IncreaseRaise => Raise(0)
    case DecreaseRaise => Raise(0)
  }

  /** The raise amount after one press of `b`: up by 5 capped at 200, down
      by 5 (never below 0) floored at 5, other buttons leave it. */
  function RaiseAfter(amount: nat, b: BettingButtonAction): (r: nat)
    ensures b == IncreaseRaise ==> r == Min(amount + RaiseStep, MaxRaiseInput)
    ensures b == DecreaseRaise ==> r == Max(SatSub(amount, RaiseStep), MinRaiseInput)
    ensures b != IncreaseRaise && b != DecreaseRaise ==> r == amount
  {
    match b
    case IncreaseRaise => if amount + 5 <= 200 then amount + 5 else 200
    case DecreaseRaise => var down := if amount >= 5 then amount - 5 else 0; if down >= 5 then down else 5
    case _ => amount
  }

  /** The amount after a whole sequence of presses. */
  function RaiseAfterAll(amount: nat, presses: seq<BettingButtonAction>): nat
    decreases |presses|
  {
    if presses == [] then amount
    else RaiseAfterAll(RaiseAfter(amount, presses[0]), presses[1..])
  }

  /** An amount inside [5, 200] stays inside whatever is pressed, so from
      the default 20 the adjusters can never leave that range. */
  lemma {:induction false} RaiseStaysInRange(amount: nat, presses: seq<BettingButtonAction>)
    requires MinRaiseInput <= amount <= MaxRaiseInput
    ensures MinRaiseInput <= RaiseAfterAll(amount, presses) <= MaxRaiseInput
    decreases |presses|
  {
    if presses != [] {
      RaiseStaysInRange(RaiseAfter(amount, presses[0]), presses[1..]);
    }
  }

  /** From the default, the range holds after any presses. */
  lemma DefaultRaiseInRange(presses: seq<BettingButtonAction>)
    ensures MinRaiseInput <= RaiseAfterAll(DefaultRaise, presses) <= MaxRaiseInput
  {
    RaiseStaysInRange(DefaultRaise, presses);
  }

  /** `handle_betting_action`: the adjusters change the amount only, the
      raise button queues a raise by the current amount, and the other
      buttons queue their own action. */
  method HandleBettingAction(input: HumanPlayerInput, b: BettingButtonAction)
    modifies input
    ensures input.raiseAmount == RaiseAfter(old(input.raiseAmount), b)
    ensures b == IncreaseRaise || b == DecreaseRaise ==> input.pendingAction == old(input.pendingAction)
    ensures b == RaiseButton ==> input.pendingAction == Some(Raise(old(input.raiseAmount)))
    ensures b == FoldButton || b == CheckButton || b == CallButton ==>
              input.pendingAction == Some(ToPlayerAction(b))
  {
    match b
    case IncreaseRaise =>
      input.raiseAmount := if input.raiseAmount + 5 <= 200 then input.raiseAmount + 5 else 200;
    case DecreaseRaise =>
      var down := if input.raiseAmount >= 5 then input.raiseAmount - 5 else 0;
      input.raiseAmount := if down >= 5 then down else 5;
    case RaiseButton =>
      input.pendingAction := Some(Raise(input.raiseAmount));
    case _ =>
      input.pendingAction := Some(ToPlayerAction(b));
  }
}
