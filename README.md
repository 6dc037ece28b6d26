# Speech-to-text streaming session protocol, modelled in Dafny

The repository relays browser microphone audio to a speech-to-text
transcriber over a socket.io connection and streams partial and final
transcripts back. Its protocol logic lives in two small places, and this
project models both:

- **The server's per-connection handler** (`server/websocket.js`). Each
  connection owns one mutable slot, `transcriber`. Four client events drive
  it: `configure-stream`, `incoming-audio`, `stop-stream` and `disconnect`.
  The transcriber's `partial`, `final` and `error` events are relayed back
  to the same socket.
- **The browser hook** (`client/src/useSocket.jsx`). It holds the
  `transcriptions` state `{partial, final}` and updates it from the `partial`
  and `final` events. It also has the wrappers that emit the client's requests.

## Files

- `wire.dfy` (module `Wire`): JavaScript values as a datatype (`Value`) and
  object destructuring (`GetProperty`). Also the event names, the client's
  requests (`Upstream`) and the server's emissions (`Downstream`).
- `session.dfy` (module `Session`) has three parts:
  - the handler as a pure specification of one atomic step, `Step` on a
    `State`, with `Run` for sequences of steps;
  - the invariant every reachable state keeps (`Wellformed`), and lemmas
    about single steps and whole runs;
  - the handler written imperatively as the class `Connection`. Its methods
    update the `transcriber` slot and the logs in place, and each is proved
    to perform exactly `Step` and to keep the invariant.
- `transcript.dfy` (module `Transcript`):
  - the hook's state updaters (`OnEvent`, `Receive`), with `Replay` for
    sequences of events;
  - independent descriptions of the outcome (`FinalTexts`, `Spaced`) and
    lemmas connecting the two;
  - the emit wrappers `SendAudio`, `ConfigureStream`, `StopStream` and
    `Disconnect`.
- `endtoend.dfy` (module `EndToEnd`): the client's requests are fed to the
  server's handler, and the server's relayed transcripts are fed to the
  client's updaters.

The transcriber (`server/transcriber.js`, whose methods are empty stubs in
front of an external backend) is an opaque collaborator. Transcribers are
numbered in order of construction. The model records the construction and
the `startTranscriptionStream`, `send` and `endTranscriptionStream` calls the
handler makes on one (`New`, `Start(sampleRate)`, `Send(audio)`, `End`),
every `socket.emit` to the client, and every console line. The four
`transcriber.on(...)` registrations (`websocket.js:13-27`) are not in that
call log: they are represented by the set `listening` of transcribers whose
relay listeners are attached. Whether `start` throws, and with what value, is
an input to the step (`StartOutcome`). The `await` on start is part of the
one atomic `configure-stream` step.

## Behaviours of the code worth knowing

The model follows the code. The list below gives behaviours of
`server/websocket.js` that a reader might not expect. For each it names the
test in `server/tests/server.test.js` that expects otherwise, or says that
no test covers it.

- `configure-stream` is not idempotent. Every configure constructs a new
  transcriber (`websocket.js:10`) and overwrites the slot. The transcriber it
  replaces is never ended, and never receives another call
  (`ConfigureTwiceNotIdempotent`, `ReplacedNeverEnded`). No server test sends
  two configures. The client test at `client/tests/socket.test.jsx:85-110`
  counts the client's emits only.
- The payload is not validated. `""` destructures to an undefined sample
  rate, and that is passed to `startTranscriptionStream`. No error reaches
  the client (`EmptyPayloadStillStarts`). The test at
  `server.test.js:119-136` expects that start is not called and that an
  error is sent.
- The transcriber is stored before start is awaited. A start that throws
  leaves it installed: audio is still sent to it, and it gets no relay
  listeners (`FailedStartStaysInstalled`). No test makes start throw.
- `stop-stream` does not clear the slot. Audio sent after a stop goes to the
  transcriber that was just ended (`StopKeepsReference`,
  `AudioAfterStopReachesEnded`). No test sends audio after a stop.
- `transcriber-ready` is only logged, never emitted to the client
  (`ReadyNeverForwarded`). The test at `server.test.js:44-47` waits for it.
- `stop-stream` on a connection that never sent `configure-stream` only logs
  a warning and calls nothing (`websocket.js:42-46`, `StopKeepsReference`).
  The test at `server.test.js:98-107` expects `endTranscriptionStream` to be
  called.
- `disconnect` on a connection that never sent `configure-stream` calls
  nothing (`websocket.js:51-53`, `DisconnectEnds`). The test at
  `server.test.js:109-117` expects `endTranscriptionStream` to be called.
- A start that rejects with `undefined` or `null` is logged, but reading
  `error.message` (`websocket.js:31`) then throws inside the `catch` block.
  Nothing is emitted and the handler's promise rejects (`ConfigureOutcome`).
  No test covers this.
- A configure payload that is `undefined` or `null` makes the parameter
  pattern `{ sampleRate }` throw before the handler's `try` block. The async
  handler's promise is rejected and nothing else happens
  (`UndestructurablePayloadIgnored`). No test covers this.
- A replaced transcriber keeps the listeners it was given, so its `partial`,
  `final` and `error` events are still relayed (`OnTranscriberEvent` checks
  `listening`, not the slot). No test covers this.

## Model

| member | source | states |
|---|---|---|
| `Wire.GetProperty` | server/websocket.js:8 | Destructuring `{ sampleRate }`, and reading `error.message` at line 31, fail exactly for `undefined` and `null`. An object yields its field. Anything else, or an object without the field, yields `undefined`. |
| `Session.OnConfigureStream` | server/websocket.js:8-33 | The specification of the `configure-stream` handler that `Connection.OnConfigureStream` is proved against. The call, emission and console logs only grow, listeners are only added, at most one event is emitted, and the slot either is unchanged or holds the newly constructed transcriber. |
| `Session.OnIncomingAudio` | server/websocket.js:35-39 | The specification of the `incoming-audio` handler that `Connection.OnIncomingAudio` is proved against. Only the call log changes, and it only grows. |
| `Session.OnStopStream` | server/websocket.js:41-47 | The specification of the `stop-stream` handler that `Connection.OnStopStream` is proved against. The slot, the listeners and the emissions are unchanged, and the call log only grows. |
| `Session.OnDisconnect` | server/websocket.js:49-54 | The specification of the `disconnect` handler that `Connection.OnDisconnect` is proved against. The slot, the listeners and the emissions are unchanged, the call log only grows, and a console line is always added. |
| `Session.OnTranscriberEvent` | server/websocket.js:13-27 | The specification of the relaying listeners that `Connection.OnTranscriberEvent` is proved against. Only the emission and console logs change, and they only grow. |
| `Session.Step` | server/websocket.js:7-54 | One step of the connection, dispatched on the event. The logs only grow, listeners are never removed, and the construction counter never decreases. |
| `Session.Run` | server/websocket.js:7-54 | The same holds for any sequence of steps. |
| `Session.ConfigureReplaces` | server/websocket.js:8-11 | A configure with a destructurable payload constructs a transcriber whose id was never used and makes it current. It starts that transcriber exactly once, with exactly the payload's `sampleRate`. It ends no transcriber, so the replaced one stays live. |
| `Session.ConfigureOutcome` | server/websocket.js:10-32 | If start succeeds, listeners are attached to the new transcriber and nothing is emitted. If start throws, the error is logged, no listener is attached, and the transcriber stays current. A thrown value other than `undefined` or `null` makes exactly one `error` carrying its `message` be emitted. For `undefined` or `null`, nothing is emitted. |
| `Session.EmptyPayloadStillStarts` | server/websocket.js:8-11 | The payload `""` starts a new transcriber with an undefined sample rate and emits nothing to the client. |
| `Session.UndestructurablePayloadIgnored` | server/websocket.js:8 | An `undefined` or `null` payload changes nothing: no transcriber, no call, no emission. |
| `Session.ConfigureTwiceNotIdempotent` | server/websocket.js:7-11 | Two configures construct two transcribers. The second becomes current, and neither step ends any transcriber. |
| `Session.AudioForwarded` | server/websocket.js:35-39 | `incoming-audio` calls `send` with the same payload on the current transcriber exactly when there is one. Otherwise the state is unchanged. |
| `Session.AudioInOrder` | server/websocket.js:35-39 | A sequence of `incoming-audio` frames reaches the current transcriber's `send` in the order received, one call per frame with the same payload, and the slot is unchanged. |
| `Session.StopKeepsReference` | server/websocket.js:41-47 | `stop-stream` with a transcriber calls `end` on it once and keeps it in the slot. Without one it only logs the warning. It emits nothing in either case. |
| `Session.DisconnectEnds` | server/websocket.js:49-54 | `disconnect` calls `end` on the current transcriber if there is one, and makes no call otherwise. |
| `Session.RelayExactly` | server/websocket.js:13-27 | A transcriber event is emitted to the client under the same name with the same payload exactly when that transcriber has listeners and the name is `partial`, `final` or `error`. The event changes no call and does not change the slot. |
| `Session.RelayInOrder` | server/websocket.js:13-23 | Events from transcribers with listeners reach the client in the order they were produced, with unchanged names and payloads. |
| `Session.StepKeepsWellformed` | server/websocket.js:7-54 | Every handler step keeps the invariant: ids are fresh, the slot holds the latest transcriber, every call goes to the latest transcriber, start follows construction, and only relayed names are emitted. |
| `Session.RunKeepsWellformed` | server/websocket.js:7-54 | Every sequence of handler steps keeps that invariant. |
| `Session.SlotHoldsLatest` | server/websocket.js:7-47 | In every run the slot holds the transcriber constructed last. Stop never clears it. |
| `Session.AudioOnlyToLatest` | server/websocket.js:7-39 | In every run each `send` goes to the transcriber constructed last before it, never to one that was replaced. |
| `Session.ReadyNeverForwarded` | server/websocket.js:25-27 | In no run is `transcriber-ready` emitted to the client. |
| `Session.ReplacedIsAbandoned` | server/websocket.js:10-54 | Once a later construction has replaced a transcriber, that transcriber gets no further call of any kind, including `end`. |
| `Session.ReplacedNeverEnded` | server/websocket.js:10-54 | The same, for every run of a connection. |
| `Session.StartedOnConstructionInRuns` | server/websocket.js:10-11 | In every run each construction is immediately followed by the start of the same transcriber. |
| `Session.StartedAtMostOnce` | server/websocket.js:10-11 | In a well-formed call log, no transcriber is started twice. |
| `Session.StartedAtMostOnceInRuns` | server/websocket.js:10-11 | In every run, no transcriber is started twice. |
| `Session.AudioAfterStopReachesEnded` | server/websocket.js:35-47 | After `stop-stream`, the next audio frame is sent to the transcriber that was just ended. |
| `Session.FailedStartStaysInstalled` | server/websocket.js:10-39 | After a start that throws, the transcriber stays current, later audio is sent to it, and it has no listeners. |
| `Session.Connection.constructor` | server/websocket.js:4-7 | A new connection has an empty slot and no calls or emissions, and has logged the connection. |
| `Session.Connection.OnConfigureStream` | server/websocket.js:8-33 | The in-place handler does exactly what `Step` specifies for `configure-stream`, and keeps the invariant. |
| `Session.Connection.OnIncomingAudio` | server/websocket.js:35-39 | The in-place handler does exactly what `Step` specifies for `incoming-audio`, and keeps the invariant. |
| `Session.Connection.OnStopStream` | server/websocket.js:41-47 | The in-place handler does exactly what `Step` specifies for `stop-stream`, and keeps the invariant. |
| `Session.Connection.OnDisconnect` | server/websocket.js:49-54 | The in-place handler does exactly what `Step` specifies for `disconnect`, and keeps the invariant. |
| `Session.Connection.OnTranscriberEvent` | server/websocket.js:13-27 | The relaying listeners do exactly what `Step` specifies for a transcriber event, and keep the invariant. |
| `Transcript.OnEvent` | client/src/useSocket.jsx:23-36 | The updater for one subscribed event. The final text only grows, and it changes exactly for `final`. Events other than `partial` and `final` leave the state unchanged. |
| `Transcript.Receive` | client/src/useSocket.jsx:5-37 | Only the subscribed names (line 5) reach an updater, so any other name leaves the state unchanged. Only `partial` and `final` change the state, and the final text changes exactly for `final`. |
| `Transcript.SendAudio` | client/src/useSocket.jsx:55-57 | Emits one `incoming-audio` carrying the data exactly when a socket exists, and nothing otherwise. |
| `Transcript.ConfigurePayload` | client/src/useSocket.jsx:59-61 | The payload is an object whose only field is `sampleRate`. |
| `Transcript.ConfigureStream` | client/src/useSocket.jsx:59-61 | Emits one `configure-stream` carrying `{ sampleRate }` exactly when a socket exists, and nothing otherwise. |
| `Transcript.StopStream` | client/src/useSocket.jsx:63-65 | Emits one `stop-stream` exactly when a socket exists, and nothing otherwise. |
| `Transcript.Disconnect` | client/src/useSocket.jsx:51-53 | Closes the socket, which the server sees as one `disconnect`, exactly when a socket exists, and does nothing otherwise. |
| `Transcript.PartialReplaces` | client/src/useSocket.jsx:31-35 | A `partial` sets the partial result to the payload and leaves the final text unchanged. |
| `Transcript.FinalAppends` | client/src/useSocket.jsx:25-30 | A `final` clears the partial result and extends the final text with a space and the payload. The old text is a prefix of the new one, which is longer by exactly one plus the length of the payload. |
| `Transcript.InertIgnored` | client/src/useSocket.jsx:5-37 | `transcriber-ready`, `error` and every unsubscribed name leave the state unchanged. |
| `Transcript.LatestPartialWins` | client/src/useSocket.jsx:31-35 | Of two consecutive partials, only the second remains. |
| `Transcript.PartialThenFinal` | client/src/useSocket.jsx:25-35 | A partial followed by a final leaves no partial result, and a final text that ends with the final's text. |
| `Transcript.FirstFinal` | client/src/useSocket.jsx:9-30 | From the initial state `{ partial: '', final: '' }` (`Transcript.Initial`, lines 9-12), one final yields a space followed by its text. |
| `Transcript.ReplayFinal` | client/src/useSocket.jsx:25-30 | After any sequence of events, the final text is the old final text followed by each final's text in order, each after one space. |
| `Transcript.FinalOnlyGrows` | client/src/useSocket.jsx:28 | The old final text is a prefix of the final text after any sequence of events. |
| `Transcript.ReplayInert` | client/src/useSocket.jsx:23-37 | A sequence of events that are neither `partial` nor `final` leaves the state unchanged. |
| `Transcript.ReplayPartialLast` | client/src/useSocket.jsx:25-35 | If the last partial-or-final event is a `partial`, its payload is the partial result. |
| `Transcript.ReplayPartialCleared` | client/src/useSocket.jsx:25-35 | If the last partial-or-final event is a `final`, the partial result is empty. |
| `EndToEnd.ConfigurePayloadRoundTrip` | client/src/useSocket.jsx:59-61 | The server's destructuring of the `{ sampleRate }` object that `configureStream` builds gives back exactly that sample rate. |
| `EndToEnd.ConfigureStreamStartsWithRate` | client/src/useSocket.jsx:59-61 | `configureStream(r)` makes the server construct a new transcriber and start it with exactly `r`. |
| `EndToEnd.SendAudioForwarded` | client/src/useSocket.jsx:55-57 | `sendAudio(d)` reaches the current transcriber's `send` with the same `d`. |
| `EndToEnd.StopStreamEnds` | client/src/useSocket.jsx:63-65 | `stopStream()` makes the server end its current transcriber. |
| `EndToEnd.DisconnectEnds` | client/src/useSocket.jsx:51-53 | `disconnect()` makes the server end its current transcriber. |
| `EndToEnd.NoSocketNoEffect` | client/src/useSocket.jsx:51-65 | Without a socket, none of the four wrappers changes anything on the server. |
| `EndToEnd.FinalsSurviveRelay` | server/websocket.js:17-19 | Relaying neither drops, adds nor reorders the texts of `final` events. |
| `EndToEnd.FinalsReachClient` | client/src/useSocket.jsx:25-30 | Suppose a transcriber with listeners produces string transcripts. Then the client's final text becomes its old text followed by each `final` text, in the order the transcriber produced them. |

## Left out

- socket.io transport: handshake, asynchronous delivery, buffering of
  emits while disconnected, and what happens to emits after a disconnect.
  Each handler is one atomic step. The interleaving that the `await` at
  `server/websocket.js:11` allows is not modelled. Payloads cross the wire
  unchanged in the model. socket.io's JSON encoding does not keep them all:
  a top-level `undefined` argument arrives as `null`, and `undefined` object
  fields are dropped. So `sendAudio(undefined)` reaches `send` as `null`, and
  the `undefined` that `websocket.js:31` emits for a thrown string reaches
  the client as `null`.
- EndToEnd.SendAudioForwarded: states that `send` receives the same value the
  client passed. Because of that encoding, this holds only when the value is
  not `undefined`; for `undefined` the server receives `null`.
- Connections are independent closures, so one connection is modelled.
  The connection id is only printed, so it is left out.
- The transcriber's own behaviour (`server/transcriber.js`, the external
  speech-to-text backend). It is reduced to the recorded calls, a
  `StartOutcome` per configure, and the events it emits.
- Node's reaction to the handler's rejected promise. This happens in two
  cases: a configure payload that is `undefined` or `null`, and a start that
  rejects with `undefined` or `null`, where reading `error.message` throws
  inside `catch`. The rejection is unhandled, and depending on the Node
  version and flags it may end the process. The model treats the first case
  as a step that changes nothing. In the second case the effects made
  before the throw (construction, start, the console line) are kept.
- `EventEmitter` throws when a transcriber emits `error` with no listener,
  which is the case after a failed start. The model treats that event as
  having no effect.
- The value start throws is recorded as a `Value`. `error.message` is read
  as an own field of an object. An `Error` created without a message has no
  own `message` and inherits `''` from `Error.prototype`; the model gives
  `undefined` there. The console lines are recorded without their formatting.
- `Value.Number` holds integers. JavaScript numbers are never computed on
  here, so the difference does not matter.
- The client's payloads are strings. JavaScript's coercion of a non-string
  `final` payload in `prev.final + ' ' + data` is not modelled.
- Client: the subscribe and unsubscribe loops over `subscriptions` and
  the `useEffect` that creates and closes the socket are not modelled.
  Their effect, that only subscribed names reach an updater, is part of
  `Receive`. `initialize` has an empty body. React's batching of state
  updates is not modelled.
- `client/src/useAudioRecorder.jsx` (Web Audio, MediaRecorder, timers,
  floating-point PCM conversion), `client/src/App.jsx` (a UI stub),
  `server/server.js` (HTTP and static-file bootstrap), and the Vite and Jest
  configuration files are not part of this model.
