/** What a command run leaves behind. */
module Runs {
  import opened Values
  import opened Points
  import opened CursorStore

  /** How the run ended, the store afterwards, and the batches written, one per `writePoints` call. */
  datatype RunResult = RunResult(outcome: Outcome, model: StoreModel, batches: seq<seq<Point>>)
}
