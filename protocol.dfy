/**
 * The messages the media relay exchanges with its two peers: the telephony
 * media stream and the realtime speech backend.  Payloads are kept opaque.
 */
module Protocol {
  import opened Wrappers

  /** Events the relay writes to the backend connection. */
  datatype BackendMsg =
    | AudioAppend(audio: string)                  // input_audio_buffer.append
    | ResponseCancel                              // response.cancel
    | FunctionOutput(callId: string, output: string)  // conversation.item.create of a function_call_output
    | ResponseCreate                              // response.create

  /** Audio carried in an outbound telephony `media` event. */
  datatype Payload = Encoded(data: string) | TypingSound

  /** Events the relay writes to the telephony connection, tagged with the stream sid it knows. */
  datatype TelephonyMsg =
    | Media(streamSid: Option<string>, payload: Payload)
    | Clear(streamSid: Option<string>)

  /** One send, on either connection, in the order the relay performed it. */
  datatype Output = ToBackend(b: BackendMsg) | ToTelephony(t: TelephonyMsg)

  /** One message read from the telephony socket, or a failed read. */
  datatype TwilioInput =
    | TwilioMedia(payload: string)
    | Start(streamSid: string)
    | Dtmf(digit: string)
    | OtherEvent(event: string)   // any other event tag (stop, mark, ...); see WellTagged
    | ReadFailed                  // disconnect, lost connection, undecodable JSON or a missing field

  /** The `arguments` field of a function-call event, after JSON decoding. */
  datatype Arguments = Unparsable | Parsed(query: Option<string>)

  /** One message read from the backend socket, or the end of that socket. */
  datatype BackendInput =
    | SpeechStarted
    | AudioDelta(delta: Option<string>)
    | FunctionCallDone(name: string, callId: string, arguments: Arguments)
    | OtherType(kind: string)     // any other event type: only logged; see WellTyped
    | Untyped                     // JSON without a `type` field
    | Undecodable                 // the message itself is not JSON
    | ConnectionClosed(clean: bool)  // clean: iteration ends normally; otherwise the read raises

  /** The telephony event tags the inbound pump dispatches on. */
  const HandledTwilioEvents: set<string> := {"media", "start", "dtmf"}
  /** The backend event types the backend pump acts on. */
  const HandledBackendTypes: set<string> :=
    {"input_audio_buffer.speech_started", "response.audio.delta", "response.function_call_arguments.done"}

  /** A catch-all telephony event never carries a tag that has its own constructor. */
  predicate WellTagged(input: TwilioInput) {
    input.OtherEvent? ==> input.event !in HandledTwilioEvents
  }

  /** A catch-all backend event never carries a type that has its own constructor. */
  predicate WellTyped(input: BackendInput) {
    input.OtherType? ==> input.kind !in HandledBackendTypes
  }

  predicate IsCancel(o: Output) { o == ToBackend(ResponseCancel) }

  predicate IsClear(o: Output) { o.ToTelephony? && o.t.Clear? }

  /**
   * The trace invariant of buffer clearing: every `response.cancel` sent to
   * the backend is immediately followed by a telephony `clear`, and every
   * `clear` immediately follows a `response.cancel`.  "Immediately" is at
   * the granularity of the relay's steps, each of which appends its sends
   * as one block.
   */
  ghost predicate Paired(s: seq<Output>) {
    && (forall i | 0 <= i < |s| && IsCancel(s[i]) :: i + 1 < |s| && IsClear(s[i + 1]))
    && (forall i | 0 <= i < |s| && IsClear(s[i]) :: 0 < i && IsCancel(s[i - 1]))
  }

  /** What `clear_buffer` sends: cancel the backend's response, then clear the caller's queue. */
  function ClearPair(sid: Option<string>): (out: seq<Output>)
    ensures Paired(out)
    ensures |out| == 2 && IsCancel(out[0]) && out[1] == ToTelephony(Clear(sid))
  {
    [ToBackend(ResponseCancel), ToTelephony(Clear(sid))]
  }

  /** Appending a well-paired trace to a well-paired trace keeps it well paired. */
  lemma PairedAppend(s: seq<Output>, t: seq<Output>)
    requires Paired(s) && Paired(t)
    ensures Paired(s + t)
  {
  }
}
