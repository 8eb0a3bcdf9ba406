# Media relay of the voice-call bridge

This is a Dafny model of the core of a phone-call bridge (`main.py`). The bridge connects a Twilio media stream to the OpenAI realtime speech backend. For each call it runs three loops concurrently:

- the **inbound pump** forwards caller audio to the backend and handles the `start` and `dtmf` events;
- the **backend pump** forwards audio deltas to the caller and handles barge-in (`input_audio_buffer.speech_started`) and function calls (`get_additional_context`, `call_support`);
- the **idle watchdog** hangs up a call that has been silent for more than 40 seconds and records `"hangup"` for the session in Redis.

Two small pieces sit around the relay:

- when the stream ends, a separate request reads that record and either hangs up or dials the callback number;
- when a call comes in, a knowledge-base session is created with a counted retry.

The model has five modules:

- `Wrappers` holds `Option`.
- `Protocol` holds the messages in both directions and the pairing invariant of buffer clearing. In the model's trace, every `response.cancel` sent to the backend is immediately followed by a telephony `clear`, and every `clear` immediately follows a cancel.
- `Relay` holds the class `MediaRelay`. Its fields are the per-call state: stream sid, last-activity time, termination flag, connection flags, loop flags, the Redis map, and one ordered trace of every message sent on either connection. Each loop is a step method that handles one message, or one watchdog wake-up, as an indivisible step. Any interleaving of whole steps is a possible run. The current time is a parameter of each step. The module also holds end-to-end scenarios.
- `Calls` holds the end-of-call disposition and `create_session`.
- `Knowledge` holds the knowledge-base lookup retry, both as written and as intended (see Findings).

A single trace, rather than two logs, lets the contracts state the order of sends within one step across the two connections: the cancel before the clear, and the typing sound before the clear before the function output. The order on each connection holds in the source as well. Across connections it holds only up to the sends of other loops, which in the source can fall between them (see "## Left out").

Four behaviours of the code that a reader might not expect, which the model keeps:

- The backend pump never checks the termination flag. It keeps forwarding until its connection closes, so frames can still go out after termination.
- An audio delta that arrives before any `start` event is sent with no stream sid. It is not dropped.
- Apart from `call_support`, the backend pump's exits set no termination, and none of them clears the buffers; that is left to the teardown.
- The timeout is the enforced 40 seconds, not the 30 seconds the log message mentions.

## Model

| member | source | states |
|---|---|---|
| `Protocol.ClearPair` | main.py:404-410 | buffer clearing sends exactly two messages: first `response.cancel` to the backend, then a `clear` tagged with the given sid to telephony; the pair keeps the cancel/clear pairing invariant |
| `Relay.MediaRelay.ClearBuffer` | main.py:404-410 | appends the cancel and then the clear for the current stream sid to the trace, and changes nothing else |
| `Relay.MediaRelay.constructor` | main.py:122-134 | a call starts with no stream sid, activity time "now", termination unset, both connections open, all three loops running, nothing sent, and the store as given |
| `Relay.MediaRelay.InboundStep` | main.py:155-195 | a `media` event appends exactly one `input_audio_buffer.append` with the unchanged payload if the backend is open, otherwise nothing; `start` sets only the sid and the activity time; a `dtmf` of "0" closes telephony and ends the loop; other digits and events change nothing; the loop ends exactly on a failed read, digit 0, or termination already set, and then termination is set and exactly one cancel+clear pair for the current sid is sent |
| `Relay.MediaRelay.BackendStep` | main.py:197-269 | every decoded message resets the activity time; `speech_started` sends cancel then clear; a non-empty delta sends exactly one `media` tagged with the current sid (possibly none) unless re-encoding fails; `get_additional_context` sends, in order, the typing sound, cancel, clear, the `function_call_output` with the same call id and the lookup result, then `response.create`; with no query the loop ends right after the typing sound; `call_support` sets termination and ends the loop; undecodable arguments and unknown names send nothing; a message without a type ends the loop; the termination flag is not consulted; a connection close ends the loop and closes the backend, and only an unclean one (like every other exit) counts as the pump raising |
| `Relay.MediaRelay.WatchdogTick` | main.py:136-151 | acts only while termination is unset and strictly more than 40 has elapsed; it then stores "hangup" under the session id, sets termination, sends one cancel+clear, closes telephony and stops; it stops without acting once termination is set; otherwise nothing changes |
| `Relay.MediaRelay.Teardown` | main.py:271-283 | runs once, when the inbound pump has ended or the backend pump has ended by raising (not on a clean backend close); sends one cancel+clear and closes both connections; the termination flag and the store are left as they were |
| `Relay.HangupOnlyByWatchdog` | main.py:100-112 | for any reachable state of a call whose session had no stored entry, the end-of-call disposition is a hangup exactly when the watchdog ended the call, and otherwise it dials the callback number |
| `Relay.IdleCallHangsUp` | main.py:139-149 | a call idle for more than 40 ends with disposition hangup, and the only sends are one cancel+clear with no sid |
| `Relay.SupportRequestTransfers` | main.py:254-257 | `start` then `call_support`: termination is set, nothing is sent, and the end-of-call handler dials the callback number |
| `Relay.ZeroDigitEndsCall` | main.py:172-179 | `start` then digit 0: termination is set, the inbound loop has ended, and the only sends are one cancel+clear tagged with the stream's sid |
| `Relay.BargeInClearsFirst` | main.py:208-222 | an audio delta before `start` goes out with no sid; `speech_started` puts the cancel and clear before the next forwarded delta |
| `Calls.EndCallDisposition` | main.py:100-112 | hangup exactly when the stored state is "hangup"; an absent entry (read as "transfer") or any other value dials the callback number |
| `Calls.CreateSession` | main.py:315-329 | at most 3 attempts; every attempt before the last one made failed; returns the id of the first successful attempt, or the generated id after exactly 3 failures |
| `Knowledge.LookupAsWritten` | main.py:296-313 | the lookup as written raises exactly when the first `send` raises, after one attempt; otherwise it returns the first answer within 3 attempts, and the fallback only after 3 failed attempts whose first reply came back unreadable |
| `Knowledge.Lookup` | main.py:296-313 | the lookup as intended: at most 3 attempts, returns the first answer, and otherwise returns the fallback sentence after exactly 3 attempts |
| `Knowledge.SendAlwaysFails` | main.py:298-313 | with a service whose `send` always raises, the as-written lookup raises, while the intended one returns the fallback after 3 attempts |

## Left out

- Each step runs without interruption. In the source every send is an `await`, where another loop may run. Such points lie between the cancel and the clear (main.py:409-410), between the typing sound and the buffer clear (main.py:234-239, where the stream sid is read again), and between the two backend sends (main.py:252-253). So in the source an inbound `input_audio_buffer.append`, or a `start` that changes the sid, can fall between those sends. The model does not produce such traces. Its pairing invariant and the cross-connection order within a step hold only at step granularity.
- Websocket accept, receive and close, the backend connection handshake, HTTP routing and `asyncio` task plumbing are left out. The three loops are step methods that may be called in any order. A blocking receive is not modelled.
- Sends are recorded as attempts. A send on a connection that is already closed raises in the source and is not modelled. One example is the `clear` sent after digit 0 has closed telephony.
- Time is an integer parameter of each step, not a float clock. The watchdog's 5-second sleep and the lookup's 2-second sleeps are not modelled. Each step reads the clock once, so the second reset at main.py:223 and the one at main.py:236 use the same value as main.py:203.
- Redis is a `map<string, string>` owned by the call. Other calls writing other keys are not modelled.
- The knowledge-base lookup inside the relay is an opaque total function from query to text. This matches the intended lookup `Knowledge.Lookup`, which always returns text. Its project id, session id and key arguments are not modelled.
- `Relay.MediaRelay.BackendStep` has no path for the as-written lookup failure (see Findings). In the source, when the lookup's first `send` fails, the lookup raises and the backend pump ends right after the typing sound, with no clear and no function output.
- Base64 decoding and re-encoding of an audio delta is an opaque parameter that may fail. The contents of the typing sound file are the constant `TypingSound`.
- TwiML generation and URL quoting in the incoming-call and end-of-call handlers are not modelled. The disposition is the datatype `Hangup | Dial(number)`. The incoming-call handler is modelled only through `Calls.CreateSession`.
- The bootstrap messages are not modelled: the session update, the greeting and the first `response.create` (main.py:331-388). The trace starts after them.
- A function-call event missing its `name`, `call_id` or `arguments` field is not modelled; in the source it ends the backend pump. Arguments that decode to something other than an object are also not modelled.
- Logging and the system prompt are left out.

## Findings

| source | as written | input that shows it | evidently intended | confidence | as-written member | corrected member |
|---|---|---|---|---|---|---|
| main.py:308-310 | the error handler of the lookup retry logs the local `conversation`, which is bound only after some `send` has returned; when the first `send` raises, the handler itself raises and the exception leaves the lookup, so the backend pump ends | the knowledge service's `send` raises on the first attempt | log the current error and retry, up to 3 attempts, then return the fallback sentence | high; not executed | `Knowledge.LookupAsWritten` | `Knowledge.Lookup` |
