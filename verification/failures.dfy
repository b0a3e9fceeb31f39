/** Failure values of the combat engine: the exceptions the PHP class throws,
    and the two result shapes used to report them without control flow. */
module Failures {

  /** The failures an engine call can end in. */
  datatype CombatError =
    | AlreadyWon        // CombatAlreadyWonException: takeTurn on a decided fight
    | MoveDoesNotExist  // MoveDoesNotExistException: bad move index
    | NotWon            // CombatNotWonException: getWinner before a decision
    | DivisionByZero    // DivisionByZeroError: the damage formula divides by a defence of 0
    | TypeError         // TypeError: a non-bool value assigned to the bool `winner` property

  datatype Option<+T> = None | Some(value: T)

  /** A computed value, or the failure that replaced it. */
  datatype Result<+T> = Ok(value: T) | Err(error: CombatError)
}
