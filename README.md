# Realtime voice client: verified model

This project is a Dafny model of the core of a browser voice-assistant front end. It covers two parts:

- **The realtime session client** (`RealtimeClient`, src/lib/realtime.ts).
  - It fetches an ephemeral token.
  - It opens a WebRTC peer connection with a playback element, a microphone track and an `oai-events` data channel.
  - It performs the SDP offer/answer exchange.
  - It reports everything to a single observer as `VoiceEvent`s.
  - It normalises inbound data-channel messages into those events.
  - It tears the connection down on `disconnect`.
- **The phone-number rule** of the "Call Me" form (src/components/PhoneCall.tsx). A number is accepted when it holds at least seven ASCII digits. A click then forwards the raw input.

Modules:

- `Wrappers`: `Option`, and the truthiness of an optional string field.
- `VoiceEvents`: the event vocabulary, and `ReportedStatus`, the session status an observer reads off the events it has received.
- `Normalizer`: `Normalize`, a total function from a parsed message (or `None` for a payload that does not parse) to zero or one event.
- `Realtime`: the `RealtimeClient` class, which works on these state fields:
  - `pc`, `dc` and `audioEl`: the client's own three nullable fields, made `Option`s of opaque handles.
  - `events`: the observer's calls.
  - `sent`: data-channel sends.
  - `released`: `close()` and `remove()` calls.
  - `liveStreams`: microphone streams obtained and never stopped.
  - `nextHandle`: a handle counter.
  - `dcOpen`: whether the channel held in `dc` has fired `onopen`, so that its `readyState` is `open`.

  `Connect` runs against a `Script` that gives the outcome of every awaited step. There is also a specification of which step fails first, and a set of client scenarios.
- `PhoneCall`: `StripNonDigits` (the `replace(/\D/g, '')`), `IsValid`, `OnClick`, and lemmas about them.

The code departs from a tidier design in several ways. That design would report one `disconnected` on failure, send one initiating message, stop the microphone, check the SDP status and guard against re-entrant `connect`. The model follows the code:

- A failed `connect` reports `error`, then `status_change{disconnected}` twice. The first comes from the catch block, the second from `disconnect()`.
- The microphone stream is never stopped. `liveStreams` keeps it after `disconnect`.
- There are no `getLocalStream` / `getRemoteStream` accessors.
- The answer of the SDP POST is used whatever its HTTP status: `Script.sdpOk` is never read.
- A second `connect` overwrites `pc`, `dc` and `audioEl` without closing the previous objects.
  - A token failure during such a call tears down the previous session instead.
  - A microphone failure during such a call closes the previous channel but leaks the previous connection and element.
- When the channel opens, the client sends two messages: `session.update`, then `response.create`.

## Model

| member | source | states |
|---|---|---|
| `VoiceEvents.ReportedStatusIgnores` | src/lib/realtime.ts:8-14 | Appending events that are not `status_change` never changes the status an observer has been told |
| `Normalizer.Normalize` | src/lib/realtime.ts:132-160 | Each case is an if-and-only-if: speech-started/stopped types give exactly those events, and the two transcript types give transcript events only when `transcript` is truthy, carrying that transcript. Unrecognised types and unparseable payloads give nothing, and the handler never yields `error` or `status_change` |
| `Normalizer.WireMessage` | src/lib/realtime.ts:136-152 | Every event the handler can emit has a recognised message that normalises back to exactly that event |
| `Normalizer.NormalizeAll` | src/lib/realtime.ts:61 | A run of message callbacks yields no more events than messages, all of them channel events, and none if no message is recognised |
| `Normalizer.NormalizeAllSnoc` | src/lib/realtime.ts:61 | One more message appends exactly its own normalised event, if any, after the events of the earlier messages, in order |
| `Normalizer.MessagesKeepStatus` | src/lib/realtime.ts:132-160 | No sequence of inbound messages, parseable or not, changes the reported session status |
| `PhoneCall.StripNonDigits` | src/components/PhoneCall.tsx:20 | The stripped string holds only characters `0`-`9` and is no longer than the input |
| `PhoneCall.StripAppend` | src/components/PhoneCall.tsx:20 | Stripping distributes over concatenation |
| `PhoneCall.StripIsProjection` | src/components/PhoneCall.tsx:20 | A string is left unchanged by stripping exactly when it is all digits, and stripping twice equals stripping once |
| `PhoneCall.StripCountsDigits` | src/components/PhoneCall.tsx:20 | The stripped length equals the number of digit positions of the input |
| `PhoneCall.IsValid` | src/components/PhoneCall.tsx:20 | `isValid` holds exactly when at least 7 characters of the input are in `0`-`9` |
| `PhoneCall.FewDigitsInvalid` | src/components/PhoneCall.tsx:20 | A number with six or fewer digits is invalid |
| `PhoneCall.EmptyInvalid` | src/components/PhoneCall.tsx:20 | The empty input is invalid |
| `PhoneCall.NonDigitsIrrelevant` | src/components/PhoneCall.tsx:20 | Inserting or removing non-digit characters anywhere leaves the stripped digits, and therefore validity, unchanged |
| `PhoneCall.AppendDigit` | src/components/PhoneCall.tsx:20 | Appending a digit adds exactly one to the digit count, so a valid number stays valid |
| `PhoneCall.InsertionKeepsValid` | src/components/PhoneCall.tsx:20 | Inserting any text anywhere never lowers the digit count, so validity is monotone |
| `PhoneCall.OnClick` | src/components/PhoneCall.tsx:62-63 | A click calls `onCall` exactly when the number has at least 7 digits, and then with the unmodified input; otherwise no call happens |
| `PhoneCall.ForwardsRawInput` | src/components/PhoneCall.tsx:62 | For a valid number with any non-digit in it, the string handed to `onCall` differs from the stripped digits that were counted |
| `Realtime.StepError` | src/lib/realtime.ts:32-82 | The status check fails exactly on a non-ok token status. The key check fails exactly when the body is `null` or `client_secret.value` is falsy. Every other step fails exactly when its scripted outcome is a rejection |
| `Realtime.StepMessages` | src/lib/realtime.ts:32-82 | A non-ok status throws `Failed to get token: ` followed by the response body. A `null` body throws the TypeError's message, and a falsy `client_secret.value` throws `Invalid token response`. Every other step throws exactly its scripted rejection |
| `Realtime.FirstErrorIndex` | src/lib/realtime.ts:27-91 | The index returned is that of the first step that throws: every earlier step goes through, and the step at the index throws (or the index is past the end) |
| `Realtime.FirstErrorAppend` | src/lib/realtime.ts:32-83 | Running two step lists in sequence throws what the first throws, or else what the second throws |
| `Realtime.FirstFailure` | src/lib/realtime.ts:27-91 | The outcome of the try/catch: a reported failure is one of `connect`'s steps with exactly the message that step throws, and no failure means every step went through |
| `Realtime.FirstFailurePhases` | src/lib/realtime.ts:32-83 | `connect` fails in the token request, else at `getUserMedia`, else in the offer/answer exchange, and the failing step belongs to that phase |
| `Realtime.SdpStatusIgnored` | src/lib/realtime.ts:69-82 | The HTTP status of the SDP answer has no influence on whether or how `connect` fails |
| `Realtime.SucceedsIffNoStepThrows` | src/lib/realtime.ts:27-91 | `connect` succeeds exactly when none of its awaited steps throws |
| `Realtime.RequestToken` | src/lib/realtime.ts:32-42 | The token phase throws the fetch rejection, or `Failed to get token: ` plus the body on a non-ok status, or the JSON rejection, or the TypeError of reading `client_secret` on a `null` body, or `Invalid token response` when `client_secret.value` is falsy, in that order of precedence |
| `Realtime.Handshake` | src/lib/realtime.ts:64-82 | The offer/answer phase throws the first rejection among createOffer, setLocalDescription, the SDP POST and setRemoteDescription |
| `Realtime.Teardown` | src/lib/realtime.ts:95-106 | The releases of `disconnect`'s three `if` blocks for the given fields, in source order |
| `Realtime.TeardownReleasesHeld` | src/lib/realtime.ts:95-106 | One release per non-null field. The released objects are exactly the held connection, channel and element, in that order |
| `Realtime.RealtimeClient.constructor` | src/lib/realtime.ts:16-24 | A new client holds nothing, has reported nothing and satisfies the all-or-none invariant |
| `Realtime.RealtimeClient.Disconnect` | src/lib/realtime.ts:94-108 | Afterwards `pc`, `dc` and `audioEl` are null. Exactly one `status_change{disconnected}` is appended. Exactly the held objects are released, in the order connection, channel, element. The microphone is untouched |
| `Realtime.RealtimeClient.OpenPeerConnection` | src/lib/realtime.ts:45-52 | A fresh peer connection and a fresh autoplay element with no source replace the previous ones, which are not closed |
| `Realtime.RealtimeClient.AttachMicrophone` | src/lib/realtime.ts:55-61 | A granted microphone stream stays live, and a fresh data channel replaces the previous one |
| `Realtime.RealtimeClient.Abort` | src/lib/realtime.ts:86-91 | The catch block appends `error{message}` and `status_change{disconnected}` twice, and releases whatever is held |
| `Realtime.RealtimeClient.Attempt` | src/lib/realtime.ts:30-84 | The `try` block throws exactly the first failure of the script. A token failure creates nothing. A microphone failure leaves a new connection and element beside the old channel. Past the microphone all three objects are new and the new channel is not open. Only success reports `connected` |
| `Realtime.RealtimeClient.Connect` | src/lib/realtime.ts:26-92 | On success it appends exactly `[connecting, connected]` and leaves all three fields holding the new objects, with the new channel not yet open. On a failure it appends `connecting`, `error{message}`, `disconnected`, `disconnected` and leaves all three null. A token-phase failure creates nothing. A microphone failure has created the connection and element but no channel. A handshake failure releases all three new objects but leaves the microphone captured |
| `Realtime.RealtimeClient.HandleTrack` | src/lib/realtime.ts:50-52 | An inbound stream becomes the source of whatever playback element is held at that moment, and of none when there is none |
| `Realtime.RealtimeClient.HandleDataChannelOpen` | src/lib/realtime.ts:110-130 | The `onopen` of line 60: the opened channel becomes open if it is the held one. With no channel held nothing is sent. If the held channel is not open, the first `send` throws and nothing is sent. Otherwise exactly two messages are sent on the held channel: first `session.update`, then `response.create` |
| `Realtime.RealtimeClient.HandleDataChannelMessage` | src/lib/realtime.ts:132-160 | The observer receives exactly the normalised event of the message, if any, and nothing else changes |
| `Realtime.DeliverMessages` | src/lib/realtime.ts:61 | Delivering a run of messages through `onmessage` appends exactly `NormalizeAll` of them to the observer's log, and nothing else changes |
| `Realtime.ConversationScenario` | src/lib/realtime.ts:26-160 | Connect, speech started, speech stopped, an ignored `rate_limits.updated`, an unparseable payload, agent transcript `Hi there`, then disconnect, report exactly `connecting, connected, speech_started, speech_stopped, agent_transcript_done("Hi there"), disconnected` |
| `Realtime.FailedConnectScenario` | src/lib/realtime.ts:86-107 | A fresh client's failed connect reports one error between `connecting` and two `disconnected`. It releases every object it created. The microphone stays captured when the failure was in the handshake |
| `Realtime.DisconnectTwiceScenario` | src/lib/realtime.ts:94-108 | Two disconnects of an idle client report `disconnected` twice, release nothing, and leave the fields null |
| `Realtime.ReconnectScenario` | src/lib/realtime.ts:45-59 | A second successful connect leaks the first session's connection, channel and element. The final disconnect releases only the second session's objects, and both microphone streams stay live |
| `Realtime.OpenScenario` | src/lib/realtime.ts:110-129 | After a successful connect the channel's opening sends `session.update`, then `response.create`, on the new channel |
| `Realtime.LeakedChannelOpenScenario` | src/lib/realtime.ts:45-60 | After two successful connects, the leaked first channel's opening sends nothing, because the second channel is not open yet. The second channel's opening then sends the two messages on it |
| `Realtime.StaleChannelOpenScenario` | src/lib/realtime.ts:110-111 | After a reconnect whose handshake failed, `dc` is null. When the leaked first channel opens, the `!this.dc` guard sends nothing |

## Left out

- `fetch`, `RTCPeerConnection`, `createOffer`/`setLocalDescription`/`setRemoteDescription`, `getUserMedia`, `createDataChannel`, and `document.createElement` are browser primitives. They appear only as scripted `Outcome`s and opaque handles.
- The `console.error` logging at src/lib/realtime.ts:87 and src/lib/realtime.ts:158 is not modelled.
- The SDP offer/answer content (the exchange of RFC 3264, performed by the browser) is not modelled, and neither is the bearer header. Only the success or failure of each step matters here.
- `JSON.parse` is foreign. A payload that does not parse, or parses to a value whose `type` cannot be read (such as `null`), is `None`.
- Normalizer.Normalize: `type` and `transcript` are modelled only as absent or a string. A non-string `transcript` (a non-zero number, an object) would be truthy in JavaScript and forwarded as is; the model does not represent such values.
- Realtime.RealtimeClient.Connect: failures that the source's steps could raise but that are not scripted are not modelled. These are a throwing `RTCPeerConnection` constructor, `createElement` or `createDataChannel`; a rejecting `text()` on a non-ok token response; a `getUserMedia` stream with no track; and a thrown value without a `message`.
- Realtime.RealtimeClient.HandleTrack: the stream is an opaque `nat` handle. A track event with no stream, where `e.streams[0]` is `undefined` and becomes the element's `srcObject`, is not represented.
- Realtime.RealtimeClient.HandleDataChannelOpen: a channel's readiness is modelled only as whether the held channel has fired `onopen`. A held channel that closes from the remote side is not modelled; such a channel would throw on `send` too.
- The content of the `session.update` payload is a constant vendor configuration. Only its place in the send order is modelled.
- Asynchrony and interleaving are not modelled. `connect` runs sequentially to settlement. Callbacks (`ontrack`, `onopen`, `onmessage`) are separate method calls between operations, not interleaved with `connect`'s awaits, and a `disconnect` called mid-connect is not modelled.
- The observer is the append-only `events` log. An observer that throws is not modelled.
- src/components/AudioVisualizer.tsx is canvas rendering with floating-point layout and animation frames, and is not part of this model.
- src/app/voice/page.tsx, src/components/VoiceButton.tsx, src/components/MobileBlocker.tsx, src/app/page.tsx and src/app/layout.tsx are layout and trivial toggles, and are not part of this model.
- src/components/EventLog.tsx, src/components/Transcript.tsx, src/app/api/call/route.ts, src/app/api/token/route.ts and src/lib/calling.ts are unimplemented stubs or type declarations, and are not part of this model.
- The JSX of PhoneCall (styles, the input's `onChange`) is not modelled. The input's current value is a parameter.
