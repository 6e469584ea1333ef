/** The two pieces of src/betting_ui.rs the rules depend on: the buttons a
    human can press and the record of the human's pending choice. */
module BettingUi {
  import opened Common
  import opened Actions

  /** `BettingButtonAction`. */
  datatype BettingButtonAction = FoldButton | CheckButton | CallButton | RaiseButton
                               | IncreaseRaise | DecreaseRaise

  /** The raise amount the input starts with. */
  const DefaultRaise: nat := 20

  /** `HumanPlayerInput`: the action the human has chosen but that has not
      been played yet, and the amount the raise button will raise by. */
  class HumanPlayerInput {
    var pendingAction: Option<PlayerAction>
    var raiseAmount: nat

    /** `HumanPlayerInput::default`: nothing pending, raise by 20. */
    constructor Default()
      ensures pendingAction == None && raiseAmount == DefaultRaise
    {
      pendingAction := None;
      raiseAmount := DefaultRaise;
    }
  }
}
