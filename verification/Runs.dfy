/** The states of a run, as its row in the database has them. */
module Runs {
  datatype RunState = Created | Queued | Running | Completed | Errored
}
