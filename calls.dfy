/**
 * The two request handlers around a call: the session bootstrap of the
 * incoming-call webhook (its counted retry) and the end-of-call handler
 * (its choice between hanging up and dialling the callback number).
 */
module Calls {
  import opened Wrappers

  /** The value the idle watchdog stores under a session id. */
  const HangupState := "hangup"
  /** The state an end-of-call request assumes when nothing was stored. */
  const TransferState := "transfer"
  /** `max_retries`: the loop runs while `tries <= MaxRetries`. */
  const MaxRetries := 2
  const MaxAttempts := MaxRetries + 1

  /** The markup the end-of-call handler returns, as a choice. */
  datatype Disposition = Hangup | Dial(number: string)

  /**
   * The end-of-call decision: read the stored state of the session (absent
   * reads as "transfer"); "hangup" ends the call, anything else dials the
   * callback number.
   */
  function EndCallDisposition(store: map<string, string>, sessionId: string, phoneNumber: string): (d: Disposition)
    ensures d == Hangup <==> sessionId in store && store[sessionId] == HangupState
    ensures d != Hangup ==> d == Dial(phoneNumber)
    ensures sessionId !in store ==> d == Dial(phoneNumber)
  {
    var state := if sessionId in store then store[sessionId] else TransferState;
    if state == HangupState then Hangup else Dial(phoneNumber)
  }

  /**
   * Session bootstrap with a counted retry.  `create(t)` is the outcome of
   * the knowledge-base call on attempt `t`: the new session id, or None when
   * the call raised.  `generated` stands for the fresh random id used when
   * every attempt failed.  `calls` is the number of attempts made.
   */
  method CreateSession(create: nat -> Option<string>, generated: string) returns (id: string, calls: nat)
    ensures 1 <= calls <= MaxAttempts
    ensures forall t :: 0 <= t < calls - 1 ==> create(t).None?
    ensures create(calls - 1).Some? ==> id == create(calls - 1).value
    ensures create(calls - 1).None? ==> calls == MaxAttempts && id == generated
  {
    var tries := 0;
    while tries <= MaxRetries
      invariant 0 <= tries <= MaxAttempts
      invariant forall t :: 0 <= t < tries ==> create(t).None?
    {
      var session := create(tries);
      if session.Some? {
        return session.value, tries + 1;
      }
      tries := tries + 1;
    }
    return generated, tries;
  }
}
