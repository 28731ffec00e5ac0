/** The layer tag that accompanies every command: which UI domain owns the dispatch. */
module Shared {

  /** One tag per UI domain; closed, so every dispatch names exactly one of them. */
  datatype Layer =
    | App
    | Manager
    | Tasks
    | Pick
    | Input
    | Confirm
    | Help
    | Completion
    | Which
}
