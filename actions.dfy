/** The betting actions of src/betting.rs. */
module Actions {

  /** `PlayerAction`: a raise carries the amount to raise by. */
  datatype PlayerAction = Fold | Check | Call | Raise(amount: nat)
}
