/** What can become of one external command that reports its steps to a client. */
module Commands {

  /** It worked; it was refused without effect; it took effect and still reported a
      failure; or the client was lost, before or after the effect. */
  datatype Fate = Done | Refused | Late | Gone(effect: bool)

  predicate Took(f: Fate) {
    f.Done? || f.Late? || (f.Gone? && f.effect)
  }

  /** How a request ends: no step failed, some step failed, or the client is gone. */
  datatype Outcome = Fine | Failed | ClientGone

  function OutcomeOf(f: Fate): Outcome {
    if f.Done? then Fine else if f.Gone? then ClientGone else Failed
  }
}
