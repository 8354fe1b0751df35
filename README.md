# Realtime transcription console: event reducer and display selector

This project models the two pieces of logic in the browser client of a realtime
speech console. It also proves what they guarantee.

- **The App component** (`client/components/App.jsx`). The data channel's
  `message` listener classifies each server event by substring tests on its
  `type`. It accumulates `response.output_audio_transcript.delta` fragments into
  one buffer, keyed by the current `response_id`. After each delta it writes a
  live record into the event log and collapses older transcription records with
  the same `event_id`. On `...done` it writes a completed record carrying the
  server's transcript and resets the buffer. On `input_audio_buffer.committed` it
  sends a `response.create`. `sendClientEvent` assigns an `event_id` when one is
  missing, sends, stamps a timestamp and prepends the message to the log. The
  `open` listener resets everything and sends one `session.update`.
- **The EventLog view** (`client/components/EventLog.jsx`). It filters the log to
  input-transcription records. It picks the first live record, else the first
  record with text, else the first record. It shows that record's `text`, else
  its `transcript`.

## Layout

- `json.dfy`, module `Json`: the values the client handles. A JSON member is
  missing, `null` or a string (`Val`). The module also defines JavaScript
  truthiness, `||`, `String.prototype.includes` (`Contains`) and the one object
  shape used for server events, client messages and log records (`Event`).
- `reducer.dfy`, module `Reducer`: the component's state as a value (`State`).
  Each handler is a function from the old state to the new one (`HandleMessage`,
  `Dispatch`, `SendClientEvent`, `HandleOpen`, `Connect`, `Stop`). `Run` applies a
  sequence of such calls in order. Its `Send` input, together with
  `Reducer.SendClientEvent` and `App.SendClientEvent`, stands for a page-side
  caller of `sendClientEvent`. App.jsx has no such caller: it calls
  `sendClientEvent` only from its two listeners, and it passes the child
  components no send function. The module also holds the lemmas about them.
- `app.dfy`, module `AppComponent`: class `App`. Its fields are the component's
  state and refs, and its methods update them step by step in the source's order.
  Each method is proved to produce exactly the state the matching `Reducer`
  function specifies.
- `event_log.dfy`, module `EventLog`: the selector as functions, and lemmas about it.
- `wiring.dfy`, module `Wiring`: what EventLog shows of the log App builds.

Modelling choices:
- `crypto.randomUUID()` becomes the parameter `freshId`. `new Date().toLocaleTimeString()` becomes the parameter `now`.
- `dataChannel.send(JSON.stringify(m))` appends `m` to the trace `sent`.
- React state setters are plain assignments, applied in program order.
- `startSession` is split into its two state changes: `setDataChannel(dc)`
  (`Connect`) and, after the SDP exchange, `peerConnection.current = pc`
  (`Negotiated`).
- The listeners are attached only when `dataChannel` is set. They call the
  `sendClientEvent` captured at that moment, so a send from a listener always
  goes out (`Dispatch`). A send from the page checks the current channel
  (`SendClientEvent`).
- `currentResponseId !== event.response_id` tells `null` apart from `undefined`.
  `Val` keeps both, so a delta without `response_id` restarts the buffer after
  `open` or `done`, exactly as the code does.

Behaviour of the code that the model keeps as written:
- There is one buffer and one current response id, not one buffer per utterance.
- The completed record is keyed by the done event's `event_id`. The live record
  is keyed by `response_id`. So completion does not replace the live record
  (`CompletionKeepsLiveRecord`).
- Nothing guards against a second `open`. `promptSentForSession` is reset but
  never read (`OpenTwiceConfiguresTwice`).
- `stopSession` clears only the channel, the peer connection and the active flag.
  The log and the buffers survive (`StopKeepsLog`).
- `stopSession` calls `peerConnection.current.getSenders()` without a null check.
  `peerConnection.current` is set only at the end of `startSession`, after the
  SDP exchange that follows `setDataChannel(dc)`. A stop before that point, or a
  second stop, throws a TypeError before any React state or ref changes; only
  `dataChannel.close()` has run by then. The `dataChannel` state then stays set
  (`StopThrows`, `StopTwiceThrows`, `StopDuringStartupKeepsChannel`).
- A send without a channel logs an error and returns. No error value is returned.
- Events are never matched as a completion by payload shape. `conversation.item`
  events are skipped.
- App writes `output_audio_transcript.live` / `.completed` records without
  `isInput`. EventLog's filter rejects them, so the view never leaves its
  placeholder on App's own records (`RunShowsPlaceholder`).

## Model

| member | source | states |
|---|---|---|
| `AppComponent.App.constructor` | client/components/App.jsx:8-16 | The initial state: inactive, no channel, empty log, empty buffers, null ids. |
| `AppComponent.App.StartSession` | client/components/App.jsx:34-35 | Setting the data channel changes only the channel flag: exactly `Reducer.Connect`. |
| `AppComponent.App.Negotiate` | client/components/App.jsx:56 | Storing the peer connection changes only that flag: exactly `Reducer.Negotiated`. |
| `AppComponent.App.StopSession` | client/components/App.jsx:59-78 | Reports the TypeError exactly when no peer connection is stored, and then changes nothing. Otherwise it clears the active flag, the channel and the peer connection. This is exactly `Reducer.Stop`. |
| `AppComponent.App.Transmit` | client/components/App.jsx:82-93 | Keeps an existing `event_id` or assigns the fresh one, sends, fills in a missing timestamp, prepends to the log: exactly `Reducer.Dispatch`. |
| `AppComponent.App.SendClientEvent` | client/components/App.jsx:81-100 | Sends and logs when a channel is set, does nothing otherwise: exactly `Reducer.SendClientEvent`. |
| `AppComponent.App.OnMessage` | client/components/App.jsx:108-187 | The step-by-step listener ends in exactly the state `Reducer.HandleMessage` specifies. |
| `AppComponent.App.OnOpen` | client/components/App.jsx:190-207 | Resets state and refs, then sends the `session.update`: exactly `Reducer.HandleOpen`. |
| `Reducer.HandleMessage` | client/components/App.jsx:108-187 | The listener touches only the log, the buffer, the current id and the trace. The log is either unchanged, or gains one head record of type live, completed or `response.create` (never `isInput`) whose other records all come from the old log. At most the one `response.create` is sent. |
| `Reducer.Stamped` | client/components/App.jsx:110-112 | The listener's event with a missing timestamp filled in. `Reducer.CommittedRequestsResponse` and the `HandleMessage` lemmas use it. |
| `Reducer.ResponseCreate` | client/components/App.jsx:119 | The `response.create` message. `Reducer.CommittedRequestsResponse` states that it is what a committed event sends. |
| `Reducer.SessionUpdate` | client/components/App.jsx:200-207 | The `session.update` message with the translator instructions, `["text"]` and `"alloy"`. `Reducer.OpenResets` states that it is what `open` sends. |
| `Reducer.LiveRecord` | client/components/App.jsx:152-158 | The live record. `Reducer.DeltaAccumulates` states its type, its text (the whole buffer), its key (`response_id` or else `event_id`) and its transcription flag. |
| `Reducer.CompletedRecord` | client/components/App.jsx:170-176 | The completed record. `Reducer.DoneCompletes` states its type, its text (the server's transcript), its key (`event_id`) and its transcription flag. |
| `Reducer.Supersedes` | client/components/App.jsx:161 | The records the collapse removes. `Reducer.Collapse` states which ones survive. |
| `Reducer.Dispatch` | client/components/App.jsx:82-93 | Changes only the trace and the log. Exactly one record is prepended, and the payload sent is that record with the message's own timestamp. |
| `Reducer.SendClientEvent` | client/components/App.jsx:81-100 | The state is unchanged exactly when no data channel is set. |
| `Reducer.Collapse` | client/components/App.jsx:159-164 | A record survives collapsing exactly when it is not a transcription record with the given `event_id`; the list never grows. |
| `Reducer.CollapseAppend` | client/components/App.jsx:160-162 | Collapsing distributes over concatenation, so surviving records keep their relative order. |
| `Reducer.CollapseNothingToRemove` | client/components/App.jsx:160-162 | When no record matches, collapsing returns the list unchanged. |
| `Reducer.CollapseKeepsUnique` | client/components/App.jsx:159-164 | Collapsing keeps "at most one transcription record per `event_id`". |
| `Reducer.PrependCollapsedKeepsUnique` | client/components/App.jsx:159-164 | After collapsing its id, the new record is the only transcription record with that id. |
| `Reducer.PrependPlainKeepsUnique` | client/components/App.jsx:93 | Prepending a client message without `isTranscription` keeps the invariant. |
| `Reducer.AdmittedByShape` | client/components/App.jsx:124-132 | A type that includes "output_audio_transcript" at any offset and can contain none of the bookkeeping substrings passes the guard. |
| `Reducer.TranscriptTypeIncludes` | client/components/App.jsx:124-125 | The delta and done types include "output_audio_transcript". |
| `Reducer.TranscriptTypeAvoids` | client/components/App.jsx:127-132 | None of the bookkeeping substrings occurs in the delta or done type. |
| `Reducer.TranscriptTypeAdmitted` | client/components/App.jsx:124-142 | `response.output_audio_transcript.delta` and `.done` pass the guard. |
| `Reducer.IgnoredEventChangesNothing` | client/components/App.jsx:124-142 | Any non-committed event the guard rejects leaves the whole state unchanged. |
| `Reducer.UntypedEventChangesNothing` | client/components/App.jsx:124-142 | An event without a string `type` leaves the state unchanged. |
| `Reducer.IsTranscriptionEvent` | client/components/App.jsx:124-125 | The first half of the guard. `Reducer.TranscriptTypeIncludes` and `Reducer.AdmittedByShape` state when it holds. |
| `Reducer.IsNonTranscriptionEvent` | client/components/App.jsx:127-132 | The second half of the guard. `Reducer.TranscriptTypeAvoids` and `Reducer.AdmittedByShape` state when it fails. |
| `Reducer.Admitted` | client/components/App.jsx:124-142 | The guard. `Reducer.AdmittedByShape`, `Reducer.IgnoredEventChangesNothing` and `Reducer.TranscriptTypeAdmitted` state what passes it. |
| `Reducer.OnlyThreeKindsChangeState` | client/components/App.jsx:118-186 | Only a committed event, a delta with text or a done event with a transcript can change the state. |
| `Reducer.EmptyPayloadChangesNothing` | client/components/App.jsx:145-169 | A delta with empty or missing `delta`, or a done with empty or missing `transcript`, changes nothing. |
| `Reducer.CommittedRequestsResponse` | client/components/App.jsx:118-121 | A committed event is not itself recorded. It sends exactly one `response.create`, which is the one record added. Every other field is unchanged. |
| `Reducer.DeltaAccumulates` | client/components/App.jsx:145-165 | The buffer becomes old buffer + delta for the same response, else exactly the delta. The current id becomes `response_id`. The head of the log is a live record with the buffer, keyed by `response_id` or else `event_id`. No other transcription record keeps that id. Nothing is sent, and every other field is unchanged. |
| `Reducer.DoneCompletes` | client/components/App.jsx:169-186 | Prepends a completed record with the server's transcript (not the buffer) under the event's `event_id`. Only that id is collapsed. The buffer is then `""` and the current id null. Nothing is sent, and every other field is unchanged. |
| `Reducer.CompletionKeepsLiveRecord` | client/components/App.jsx:152-182 | When `event_id` differs from `response_id`, the live record stays in the log right behind the completed one. |
| `Reducer.DeltaRunConcatenates` | client/components/App.jsx:145-151 | After a run of deltas for one response, the buffer is the prior buffer (if it was for that response) plus all deltas in arrival order. The log's head shows it. |
| `Reducer.SendWithoutChannel` | client/components/App.jsx:94-99 | Without a channel nothing is sent and the log is unchanged. |
| `Reducer.SendWithChannel` | client/components/App.jsx:82-93 | With a channel: one payload is sent and one record prepended. Both carry the same `event_id`: the message's own if present, else the fresh one. An existing timestamp is kept and the wire payload gets no new timestamp. Every field other than the trace and the log is unchanged. |
| `Reducer.SendsAfterStopAreNoOps` | client/components/App.jsx:75-76 | After a `stopSession` that completes, every later send from the page is a no-op. |
| `Reducer.HandleOpen` | client/components/App.jsx:190-207 | The `open` listener. `Reducer.OpenResets` states its whole effect. |
| `Reducer.Connect` | client/components/App.jsx:35 | `setDataChannel(dc)`. `AppComponent.App.StartSession` is proved to perform it. |
| `Reducer.Negotiated` | client/components/App.jsx:56 | `peerConnection.current = pc`. `AppComponent.App.Negotiate` is proved to perform it. |
| `Reducer.StopThrows` | client/components/App.jsx:65 | The TypeError of `getSenders()` on a null peer connection. `Reducer.StopKeepsLog` and `Reducer.StopTwiceThrows` state its effect. |
| `Reducer.Stop` | client/components/App.jsx:59-78 | `stopSession`. `Reducer.StopKeepsLog` states its effect in both cases. |
| `Reducer.OpenResets` | client/components/App.jsx:190-207 | Opening sets the session active and resets both buffers, both ids and the prompt flag. It sends exactly one `session.update`, and the log is then exactly that message. |
| `Reducer.OpenTwiceConfiguresTwice` | client/components/App.jsx:190-207 | A second `open` sends a second `session.update`: there is no once-per-connection guard. |
| `Reducer.StopKeepsLog` | client/components/App.jsx:59-78 | Stopping always keeps the log, the buffer, the current id and the trace. With a peer connection stored it drops the channel, the peer connection and the active flag. Otherwise it throws and the state is unchanged. |
| `Reducer.StopTwiceThrows` | client/components/App.jsx:64-77 | A second stop always throws and changes nothing. |
| `Reducer.StopDuringStartupKeepsChannel` | client/components/App.jsx:35-65 | A stop between `setDataChannel(dc)` and `peerConnection.current = pc` throws: the `dataChannel` state stays set, though `close()` already ran at :62. |
| `Reducer.MessageKeepsUnique` | client/components/App.jsx:108-187 | Every listener step keeps "at most one transcription record per `event_id`". |
| `Reducer.RunKeepsUnique` | client/components/App.jsx:81-207 | Any run of messages, opens, sends, starts and stops keeps that invariant, provided the page's own messages carry no `isTranscription`. |
| `EventLog.IsInputTranscription` | client/components/EventLog.jsx:4-7 | The filter predicate. Its properties are stated by `EventLog.TranscriptionEvents` and `Wiring.NotInputTranscriptionType`. |
| `EventLog.TranscriptionEvents` | client/components/EventLog.jsx:3-8 | Exactly the records with (`isTranscription` and `isInput`) or an input-transcription type are kept. The result is empty exactly when none qualifies. |
| `EventLog.TranscriptionEventsAppend` | client/components/EventLog.jsx:3-8 | Filtering distributes over concatenation, so it preserves order. |
| `EventLog.FindFirst` | client/components/EventLog.jsx:11-16 | `find` stops at the first element that satisfies the predicate, or finds none when none does. |
| `EventLog.LiveTestIsSubstringTest` | client/components/EventLog.jsx:12 | The exact-equality test is subsumed by the "transcription.live" substring test. |
| `EventLog.LiveIsFirstLive` | client/components/EventLog.jsx:11-13 | The live record is the first filtered record whose type includes "transcription.live". It is absent exactly when no filtered record qualifies. |
| `EventLog.IsLive` | client/components/EventLog.jsx:12 | The live predicate. `EventLog.LiveTestIsSubstringTest` states that it is just the "transcription.live" substring test. |
| `EventLog.HasText` | client/components/EventLog.jsx:16 | The predicate "`e.text` or `e.transcript` is truthy". `EventLog.ChosenRecord` and `EventLog.DisplayedText` use it. |
| `EventLog.Find` | client/components/EventLog.jsx:11-16 | `Array.prototype.find`. `EventLog.FindFirst` states which element it returns. |
| `EventLog.LiveTranscription` | client/components/EventLog.jsx:11-13 | The live record. `EventLog.LiveIsFirstLive` states which record it is. |
| `EventLog.LatestTranscription` | client/components/EventLog.jsx:15-17 | The chosen record. `EventLog.ChosenRecord` and `EventLog.ChosenComesFromList` state its fallbacks and its origin. |
| `EventLog.TranscriptionText` | client/components/EventLog.jsx:19 | The shown text. `EventLog.DisplayedText` and `EventLog.NothingToShow` state it. |
| `EventLog.ShowsCursor` | client/components/EventLog.jsx:30-32 | Whether the cursor is shown. `EventLog.CursorMeansLive` states when. |
| `EventLog.ChosenRecord` | client/components/EventLog.jsx:15-17 | The chosen record is the live one if any. Otherwise it is the first filtered record with text or a transcript. Otherwise it is the first filtered record. It is absent exactly when nothing passes the filter. |
| `EventLog.ChosenComesFromList` | client/components/EventLog.jsx:3-17 | The chosen record is an element of the log that passes the filter. |
| `EventLog.DisplayedText` | client/components/EventLog.jsx:19 | The shown text is the chosen `text` if truthy, else its `transcript`. It is non-empty exactly when the chosen record has one. It always comes from a filtered record of the log. |
| `EventLog.NothingToShow` | client/components/EventLog.jsx:19-36 | With no record passing the filter, the text is empty (the placeholder branch) and no cursor is shown. |
| `EventLog.CursorMeansLive` | client/components/EventLog.jsx:30-32 | The cursor is shown only when the displayed record is the live one. |
| `Wiring.NotInputTranscriptionType` | client/components/EventLog.jsx:6-7 | A type in which "inp" never starts fails both substring tests of the filter. |
| `Wiring.AppTypesNotDisplayed` | client/components/EventLog.jsx:3-8 | None of the types App writes (`output_audio_transcript.live`, `.completed`, `response.create`, `session.update`) passes EventLog's filter. |
| `Wiring.MessageAddsNothingDisplayable` | client/components/App.jsx:152-182 | A listener step adds only records that EventLog filters out. |
| `Wiring.RunShowsPlaceholder` | client/components/EventLog.jsx:3-23 | If the log starts with nothing displayable and the page sends nothing displayable, the shown text stays empty whatever the server sends. |

## Left out

- `server.js`: Express routes, REST calls to the speech service and server-side rendering. It is I/O with no logic of its own.
- WebRTC and network setup: token fetch, `RTCPeerConnection`, `getUserMedia`, SDP exchange, and closing the peer connection and tracks in `stopSession`. These are browser and network APIs. Only `setDataChannel(dc)` (`Connect`), `peerConnection.current = pc` (`Negotiated`) and the state effect of `stopSession` are modelled. That effect includes the TypeError of the unguarded `getSenders()`.
- `JSON.parse` and `JSON.stringify`: events are already-parsed records. Members of other JSON types (numbers, booleans, objects in `type`, `delta` or the ids) are not modelled; a non-string `type` would make `includes` throw.
- Message aliasing: `sendClientEvent` mutates the caller's object in place. The model returns the updated value and does not model the caller seeing the change.
- React machinery: `useState`/`useRef`/`useEffect`, listener registration, update batching and all JSX rendering. Rendering is kept only as the text chosen and whether the cursor shows.
- `SessionControls` and `ToolPanel` are not part of this model. App.jsx passes them `startSession`, `stopSession`, `events` and `isSessionActive`, but no send function.
- `dataChannel.close()` (App.jsx:61-63) is not modelled. It runs before the unguarded `getSenders()`, so it runs even when the stop throws. The channel then stays set in the model, but it is closed.
- Channel readiness: `dataChannel.send` throws while the channel is still connecting, that is after `setDataChannel(dc)` and before `open`. It also throws once the channel is closed. Nothing is then sent or logged, but `Reducer.Dispatch` always sends and logs. The model tracks only whether a channel is set, not whether it is open.
- `console.log` / `console.error` diagnostics.
- The clock and `crypto.randomUUID()` become parameters. The model does not say they return distinct or well-formed values. Lemmas that need a truthy id or time ask for non-empty strings.
