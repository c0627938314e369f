/** The terminal status of a step, and of a whole task. */
module Statuses {
  import opened Options

  datatype Status = Success | Failed | Skipped

  /** A failure dominates; a success beats a skip; only skips leave a skip. */
  function Fold(acc: Option<Status>, s: Status): Status {
    if acc == Some(Failed) || s == Failed then Failed
    else if acc == Some(Success) || s == Success then Success
    else Skipped
  }
}
