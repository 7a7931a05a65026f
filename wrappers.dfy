/** Failure-carrying values shared by every module of the rules engine.
    The engine signals failures by raising exceptions; here each exception
    class is a constructor of `Error`, and an operation that can raise
    returns a `Result` or an `Outcome`. */
module Wrappers {

  datatype Option<T> = None | Some(value: T)

  /** One constructor per exception the engine raises (or lets escape). */
  datatype Error =
    // progression and persistence
    | InvalidCharacterClass
    | InvalidSaveData
    | CharacterDead
    | ValueError            // Python's built-in ValueError
    | TypeError             // Python's built-in TypeError
    // combat
    | InvalidTarget
    | CombatNotActive
    | UnboundResult         // UnboundLocalError: start_battle read `result` before assigning it
    // quests
    | QuestNotFound
    | QuestRequirementsNotMet
    | QuestAlreadyCompleted
    | QuestNotActive
    | InsufficientLevel
    | PrerequisiteCycle     // the model's stand-in for a prerequisite walk that never ends
    // inventory
    | InventoryFull
    | ItemNotFound
    | InsufficientResources
    | InvalidItemType
    // content files
    | InvalidDataFormat

  datatype Result<T> = Ok(value: T) | Err(error: Error)

  /** The result of an operation that returns nothing of interest (or always True). */
  datatype Outcome = Pass | Fail(error: Error)
}
