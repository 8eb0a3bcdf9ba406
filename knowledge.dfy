/**
 * The knowledge-base lookup the relay calls for `get_additional_context`:
 * a loop of at most three attempts, each one a `send` followed by reading
 * the answer out of the reply, and a fixed fallback sentence when all fail.
 */
module Knowledge {

  const MaxRetries := 2
  const MaxAttempts := MaxRetries + 1
  const Fallback := "Sorry, I didn't get your query."

  /** What one attempt does: `send` raises, the reply cannot be read, or an answer. */
  datatype Attempt = SendFailed | ReplyUnreadable | Replied(answer: string)

  /** How the lookup as written ends: with a string, or by raising out of its error handler. */
  datatype LookupOutcome = Returned(text: string) | Raised

  /**
   * The lookup as written.  Its error handler logs the local `conversation`,
   * which is bound only once some `send` has returned; when the very first
   * `send` raises, reading it raises again and the exception leaves the loop.
   * `bound` tracks whether `conversation` has been assigned.
   */
  method LookupAsWritten(attempt: nat -> Attempt) returns (r: LookupOutcome, calls: nat)
    ensures 1 <= calls <= MaxAttempts
    ensures r == Raised <==> attempt(0) == SendFailed
    ensures r == Raised ==> calls == 1
    ensures forall t :: 0 <= t < calls - 1 ==> !attempt(t).Replied?
    ensures r.Returned? && attempt(calls - 1).Replied? ==> r.text == attempt(calls - 1).answer
    ensures r.Returned? && !attempt(calls - 1).Replied? ==>
              calls == MaxAttempts && r.text == Fallback && attempt(0) == ReplyUnreadable
  {
    var tries := 0;
    var bound := false;
    while tries <= MaxRetries
      invariant 0 <= tries <= MaxAttempts
      invariant forall t :: 0 <= t < tries ==> !attempt(t).Replied?
      invariant bound <==> tries > 0
      invariant tries > 0 ==> attempt(0) == ReplyUnreadable
    {
      match attempt(tries) {
        case Replied(answer) =>
          return Returned(answer), tries + 1;
        case ReplyUnreadable =>
          bound := true;
        case SendFailed =>
          if !bound {
            return Raised, tries + 1;
          }
      }
      tries := tries + 1;
    }
    return Returned(Fallback), tries;
  }

  /**
   * The lookup as intended: every failed attempt is retried, and after
   * three failures the fallback sentence is returned.
   */
  method Lookup(attempt: nat -> Attempt) returns (answer: string, calls: nat)
    ensures 1 <= calls <= MaxAttempts
    ensures forall t :: 0 <= t < calls - 1 ==> !attempt(t).Replied?
    ensures attempt(calls - 1).Replied? ==> answer == attempt(calls - 1).answer
    ensures !attempt(calls - 1).Replied? ==> calls == MaxAttempts && answer == Fallback
  {
    var tries := 0;
    while tries <= MaxRetries
      invariant 0 <= tries <= MaxAttempts
      invariant forall t :: 0 <= t < tries ==> !attempt(t).Replied?
    {
      var outcome := attempt(tries);
      if outcome.Replied? {
        return outcome.answer, tries + 1;
      }
      tries := tries + 1;
    }
    return Fallback, tries;
  }

  /**
   * The input that separates the two: a knowledge service whose `send`
   * always raises.  As written the lookup raises after one attempt; as
   * intended it makes three attempts and answers with the fallback.
   */
  method SendAlwaysFails() returns (asWritten: LookupOutcome, intended: string, intendedCalls: nat)
    ensures asWritten == Raised
    ensures intended == Fallback && intendedCalls == MaxAttempts
  {
    var down := (t: nat) => SendFailed;
    var calls;
    asWritten, calls := LookupAsWritten(down);
    intended, intendedCalls := Lookup(down);
  }
}
