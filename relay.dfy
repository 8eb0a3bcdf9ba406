/**
 * The per-call media relay between the telephony media stream and the
 * realtime speech backend.  The three concurrent loops of a call (the
 * inbound pump, the backend pump and the idle watchdog) are step methods on
 * one MediaRelay object; any interleaving of their calls is a possible run.
 * Every send, on either connection, is appended to one ordered trace.
 */
module Relay {
  import opened Wrappers
  import opened Protocol
  import Calls

  /** Seconds of inactivity after which the watchdog hangs up (strictly more than this). */
  const Timeout := 40
  /** The keypad digit that ends the call. */
  const ZeroDigit := "0"
  const GetAdditionalContext := "get_additional_context"
  const CallSupport := "call_support"

  class MediaRelay {
    /** The session id of the call: the key of its entry in the store. */
    const sessionId: string
    /** The store as it was when the call was accepted. */
    ghost const initialStore: map<string, string>

    /** The telephony stream sid, unknown until a `start` event. */
    var streamSid: Option<string>
    /** Time of the last activity seen on the call. */
    var lastActivity: int
    /** The termination event. */
    var terminated: bool
    var backendOpen: bool
    var telephonyOpen: bool
    /** Whether each of the three loops is still running. */
    var inboundRunning: bool
    var outboundRunning: bool
    var watchdogRunning: bool
    /** Whether the backend pump ended by raising, which ends the gathering of the two pumps. */
    var outboundRaised: bool
    /** Whether the supervisor's teardown has run. */
    var tornDown: bool
    /** Every message sent, to either peer, in order. */
    var sent: seq<Output>
    /** The shared key-value store: session id to state string. */
    var store: map<string, string>
    /** Whether the watchdog ended the call. */
    ghost var timedOut: bool

    ghost predicate Valid()
      reads this
    {
      && Paired(sent)
      && (!inboundRunning ==> terminated)
      && (!watchdogRunning ==> terminated)
      && (outboundRaised ==> !outboundRunning)
      && (timedOut ==> terminated && !watchdogRunning)
      && store == (if timedOut then initialStore[sessionId := Calls.HangupState] else initialStore)
    }

    /** A call just accepted, with both connections open and the three loops started. */
    constructor(sessionId: string, store: map<string, string>, now: int)
      ensures Valid()
      ensures this.sessionId == sessionId && initialStore == store && this.store == store
      ensures streamSid == None && lastActivity == now && !terminated && !timedOut
      ensures backendOpen && telephonyOpen
      ensures inboundRunning && outboundRunning && watchdogRunning
      ensures !outboundRaised && !tornDown
      ensures sent == []
    {
      this.sessionId := sessionId;
      initialStore := store;
      this.store := store;
      streamSid := None;
      lastActivity := now;
      terminated := false;
      backendOpen := true;
      telephonyOpen := true;
      inboundRunning := true;
      outboundRunning := true;
      watchdogRunning := true;
      outboundRaised := false;
      tornDown := false;
      sent := [];
      timedOut := false;
    }

    /** Sends `out`, in order. */
    method Send(out: seq<Output>)
      requires Valid() && Paired(out)
      modifies this`sent
      ensures Valid()
      ensures sent == old(sent) + out
    {
      PairedAppend(sent, out);
      sent := sent + out;
    }

    /** Buffer clearing: cancel the backend's response, then clear the caller's queue for the current sid. */
    method ClearBuffer()
      requires Valid()
      modifies this`sent
      ensures Valid()
      ensures sent == old(sent) + ClearPair(streamSid)
    {
      Send(ClearPair(streamSid));
    }

    /**
     * One pass of the inbound loop: handle one telephony message, then test
     * the loop condition.  When the loop ends (a failed read, the digit 0,
     * or termination set by anyone) the exit path sets termination and
     * clears the buffers.
     */
    method InboundStep(input: TwilioInput, now: int) returns (stop: bool)
      requires Valid() && inboundRunning && WellTagged(input)
      modifies this
      ensures Valid()
      ensures stop <==> old(terminated) || input.ReadFailed? || input == Dtmf(ZeroDigit)
      ensures terminated == stop && inboundRunning == !stop
      ensures streamSid == (if input.Start? then Some(input.streamSid) else old(streamSid))
      ensures lastActivity == (if input.Start? then now else old(lastActivity))
      ensures telephonyOpen == (old(telephonyOpen) && input != Dtmf(ZeroDigit))
      ensures sent == old(sent)
                      + (if input.TwilioMedia? && backendOpen then [ToBackend(AudioAppend(input.payload))] else [])
                      + (if stop then ClearPair(streamSid) else [])
      ensures store == old(store) && timedOut == old(timedOut) && backendOpen == old(backendOpen)
      ensures outboundRunning == old(outboundRunning) && watchdogRunning == old(watchdogRunning)
      ensures outboundRaised == old(outboundRaised) && tornDown == old(tornDown)
    {
      var broke := false;
      match input {
        case TwilioMedia(payload) =>
          if backendOpen {
            Send([ToBackend(AudioAppend(payload))]);
          }
        case Start(sid) =>
          streamSid := Some(sid);
          lastActivity := now;
        case Dtmf(digit) =>
          if digit == ZeroDigit {
            terminated := true;
            telephonyOpen := false;
            broke := true;
          }
        case OtherEvent(_) =>
        case ReadFailed =>
          broke := true;
      }
      stop := broke || terminated;
      if stop {
        terminated := true;
        ClearBuffer();
        inboundRunning := false;
      }
    }

    /**
     * One pass of the backend loop: handle one backend message.  Every
     * decoded message counts as activity.  The loop ends when the backend
     * connection closes, on a message without a type, on `call_support`
     * (which also sets termination), and when a `get_additional_context`
     * call carries no query.
     */
    method BackendStep(input: BackendInput, now: int, lookup: string -> string, reencode: string -> Option<string>)
      returns (stop: bool)
      requires Valid() && outboundRunning && WellTyped(input)
      modifies this
      ensures Valid()
      ensures stop <==> input.ConnectionClosed? || input.Untyped? ||
                        (input.FunctionCallDone? && input.arguments.Parsed? &&
                         (input.name == CallSupport ||
                          (input.name == GetAdditionalContext && input.arguments.query.None?)))
      ensures outboundRunning == !stop
      ensures outboundRaised == (stop && !(input.ConnectionClosed? && input.clean))
      ensures terminated == (old(terminated) ||
                             (input.FunctionCallDone? && input.arguments.Parsed? && input.name == CallSupport))
      ensures backendOpen == (old(backendOpen) && !input.ConnectionClosed?)
      ensures lastActivity == (if input.Undecodable? || input.ConnectionClosed? then old(lastActivity) else now)
      ensures input.SpeechStarted? ==> sent == old(sent) + ClearPair(streamSid)
      ensures input.AudioDelta? ==>
                if input.delta.Some? && input.delta.value != "" && reencode(input.delta.value).Some?
                then sent == old(sent) + [ToTelephony(Media(streamSid, Encoded(reencode(input.delta.value).value)))]
                else sent == old(sent)
      ensures input.FunctionCallDone? && input.arguments.Parsed? && input.name == GetAdditionalContext ==>
                if input.arguments.query.Some?
                then sent == old(sent) + [ToTelephony(Media(streamSid, TypingSound))] + ClearPair(streamSid)
                             + [ToBackend(FunctionOutput(input.callId, lookup(input.arguments.query.value))),
                                ToBackend(ResponseCreate)]
                else sent == old(sent) + [ToTelephony(Media(streamSid, TypingSound))]
      ensures input.FunctionCallDone? && (input.arguments.Unparsable? || input.name != GetAdditionalContext) ==>
                sent == old(sent)
      ensures input.OtherType? || input.Untyped? || input.Undecodable? || input.ConnectionClosed? ==>
                sent == old(sent)
      ensures streamSid == old(streamSid) && store == old(store) && timedOut == old(timedOut)
      ensures telephonyOpen == old(telephonyOpen)
      ensures inboundRunning == old(inboundRunning) && watchdogRunning == old(watchdogRunning)
      ensures tornDown == old(tornDown)
    {
      stop := false;
      match input {
        case ConnectionClosed(_) =>
          backendOpen := false;
          stop := true;
        case Undecodable =>
        case Untyped =>
          lastActivity := now;
          stop := true;
        case SpeechStarted =>
          lastActivity := now;
          ClearBuffer();
        case AudioDelta(delta) =>
          lastActivity := now;
          if delta.Some? && delta.value != "" {
            var payload := reencode(delta.value);
            if payload.Some? {
              Send([ToTelephony(Media(streamSid, Encoded(payload.value)))]);
            }
          }
        case FunctionCallDone(name, callId, arguments) =>
          lastActivity := now;
          if arguments.Parsed? {
            if name == GetAdditionalContext {
              Send([ToTelephony(Media(streamSid, TypingSound))]);
              match arguments.query {
                case None =>
                  stop := true;
                case Some(query) =>
                  var result := lookup(query);
                  ClearBuffer();
                  Send([ToBackend(FunctionOutput(callId, result)), ToBackend(ResponseCreate)]);
              }
            } else if name == CallSupport {
              terminated := true;
              stop := true;
            }
          }
        case OtherType(_) =>
          lastActivity := now;
      }
      if stop {
        outboundRunning := false;
        outboundRaised := !(input.ConnectionClosed? && input.clean);
      }
    }

    /**
     * One wake-up of the idle watchdog.  While termination is unset and
     * more than Timeout has passed since the last activity, it records
     * "hangup" for the session, sets termination, clears the buffers, closes
     * the telephony connection and stops; it also stops once it sees
     * termination set.  Otherwise nothing changes.
     */
    method WatchdogTick(now: int) returns (stop: bool)
      requires Valid() && watchdogRunning
      modifies this
      ensures Valid()
      ensures stop <==> old(terminated) || now - lastActivity > Timeout
      ensures timedOut <==> !old(terminated) && now - lastActivity > Timeout
      ensures terminated == stop && watchdogRunning == !stop
      ensures store == (if timedOut then old(store)[sessionId := Calls.HangupState] else old(store))
      ensures sent == old(sent) + (if timedOut then ClearPair(streamSid) else [])
      ensures telephonyOpen == (old(telephonyOpen) && !timedOut)
      ensures streamSid == old(streamSid) && lastActivity == old(lastActivity) && backendOpen == old(backendOpen)
      ensures inboundRunning == old(inboundRunning) && outboundRunning == old(outboundRunning)
      ensures outboundRaised == old(outboundRaised) && tornDown == old(tornDown)
    {
      if terminated {
        watchdogRunning := false;
        return true;
      }
      if now - lastActivity > Timeout {
        store := store[sessionId := Calls.HangupState];
        terminated := true;
        timedOut := true;
        watchdogRunning := false;
        ClearBuffer();
        telephonyOpen := false;
        return true;
      }
      return false;
    }

    /**
     * The supervisor's teardown, run once when the gathering of the two
     * pumps ends: the inbound pump always ends by raising, the backend pump
     * by raising unless its connection closed cleanly.  It clears the
     * buffers, then closes the backend and the telephony connections.
     */
    method Teardown()
      requires Valid() && !tornDown && (!inboundRunning || outboundRaised)
      modifies this
      ensures Valid()
      ensures sent == old(sent) + ClearPair(streamSid)
      ensures !backendOpen && !telephonyOpen && tornDown
      ensures streamSid == old(streamSid) && lastActivity == old(lastActivity) && terminated == old(terminated)
      ensures store == old(store) && timedOut == old(timedOut)
      ensures inboundRunning == old(inboundRunning) && outboundRunning == old(outboundRunning)
      ensures watchdogRunning == old(watchdogRunning) && outboundRaised == old(outboundRaised)
    {
      ClearBuffer();
      backendOpen := false;
      telephonyOpen := false;
      tornDown := true;
    }
  }

  /** Whatever the interleaving, the session's disposition is "hangup" exactly when the watchdog ended the call. */
  lemma HangupOnlyByWatchdog(relay: MediaRelay, phoneNumber: string)
    requires relay.Valid() && relay.sessionId !in relay.initialStore
    ensures Calls.EndCallDisposition(relay.store, relay.sessionId, phoneNumber) == Calls.Hangup <==> relay.timedOut
    ensures !relay.timedOut ==> Calls.EndCallDisposition(relay.store, relay.sessionId, phoneNumber) == Calls.Dial(phoneNumber)
  {
  }

  /** A call on which nothing happens for more than Timeout ends with a hangup. */
  method IdleCallHangsUp(sessionId: string, store: map<string, string>, phoneNumber: string, acceptedAt: int, now: int)
    returns (d: Calls.Disposition, trace: seq<Output>)
    requires now - acceptedAt > Timeout
    ensures d == Calls.Hangup
    ensures trace == ClearPair(None)
  {
    var relay := new MediaRelay(sessionId, store, acceptedAt);
    var stop := relay.WatchdogTick(now);
    d := Calls.EndCallDisposition(relay.store, sessionId, phoneNumber);
    trace := relay.sent;
  }

  /**
   * A call whose stream starts and whose backend then asks for support ends
   * with termination set and, with nothing stored for it, is transferred.
   */
  method SupportRequestTransfers(sessionId: string, phoneNumber: string, sid: string, callId: string, acceptedAt: int, now: int)
    returns (d: Calls.Disposition, terminated: bool, trace: seq<Output>)
    ensures terminated && d == Calls.Dial(phoneNumber)
    ensures trace == []
  {
    var relay := new MediaRelay(sessionId, map[], acceptedAt);
    var inboundStop := relay.InboundStep(Start(sid), acceptedAt);
    var backendStop := relay.BackendStep(FunctionCallDone(CallSupport, callId, Parsed(None)), now,
                                         q => q, b => Some(b));
    d := Calls.EndCallDisposition(relay.store, sessionId, phoneNumber);
    terminated := relay.terminated;
    trace := relay.sent;
  }

  /**
   * The digit 0 ends the inbound loop: termination is set and the only
   * sends are the cancel and clear of its exit path.
   */
  method ZeroDigitEndsCall(sessionId: string, store: map<string, string>, sid: string, acceptedAt: int)
    returns (terminated: bool, inboundRunning: bool, trace: seq<Output>)
    ensures terminated && !inboundRunning
    ensures trace == ClearPair(Some(sid))
  {
    var relay := new MediaRelay(sessionId, store, acceptedAt);
    var stop := relay.InboundStep(Start(sid), acceptedAt);
    stop := relay.InboundStep(Dtmf(ZeroDigit), acceptedAt);
    terminated, inboundRunning, trace := relay.terminated, relay.inboundRunning, relay.sent;
  }

  /**
   * Barge-in: when the caller starts speaking, the cancel and clear go out
   * before the next audio delta is forwarded.  An audio delta that arrives
   * before any `start` event is forwarded with no stream sid.
   */
  method BargeInClearsFirst(sessionId: string, audio: string, acceptedAt: int, now: int)
    returns (trace: seq<Output>)
    requires audio != ""
    ensures trace == [ToTelephony(Media(None, Encoded(audio)))] + ClearPair(None)
                     + [ToTelephony(Media(None, Encoded(audio)))]
  {
    var relay := new MediaRelay(sessionId, map[], acceptedAt);
    var identity := (b: string) => Some(b);
    var stop := relay.BackendStep(AudioDelta(Some(audio)), now, q => q, identity);
    stop := relay.BackendStep(SpeechStarted, now, q => q, identity);
    stop := relay.BackendStep(AudioDelta(Some(audio)), now, q => q, identity);
    trace := relay.sent;
  }
}
