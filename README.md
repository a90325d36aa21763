# Call bridge bookkeeping of tts-stream

tts-stream bridges a telephony media stream (Twilio) and a streaming text-to-speech
engine (ElevenLabs) for each live call. `server.js` keeps two tables: `sessions`
maps a callSid to its telephony socket, and `speakers` maps a callSid to its
engine socket. Each telephony connection also keeps its own `callSid` variable.
Six callbacks update this state:

- a telephony connection is accepted;
- a telephony message arrives (`start`, `media`, `stop`);
- a telephony socket closes;
- `POST /speak` is received;
- an engine socket delivers a message;
- an engine socket closes.

This project models that bookkeeping and proves properties about it.

- `messages.dfy` (module `Messages`): sockets are opaque identifiers. A
  telephony connection is a `ConnId`. An engine socket is named by the
  `/speak` request that opened it (`ReqId`). Incoming JSON messages are
  typed values. The file also defines outbound frames, HTTP responses and
  the `Event` type that covers all six callbacks.
- `handlers.dfy` (module `Handlers`): a `State` value and one pure function
  per callback. It also defines `Step`, which dispatches one event, `Run`,
  which folds a trace of events, and the invariant `Inv`.
- `properties.dfy` (module `Properties`): proofs that every callback and
  every trace keeps `Inv`, and what follows for every reachable state. It
  also proves the order of outbound audio and the quirks of the code listed
  below.
- `bridge.dfy` (module `Server`): class `Bridge`. Its fields are the tables,
  the per-connection `callSid`s, the engine sockets opened so far and four logs:
  `close()` calls, engine `close` events, outbound media frames and HTTP
  responses. There is one method per callback. Each method updates the
  fields in place, keeps `Valid()`, and ends in the state that the
  matching handler function computes.

Behaviour of the code worth knowing:

- The `/speak` handler itself never answers 400: a missing or empty
  `callSid` or `text` is not rejected. Only `express.json()` (server.js:8,
  left out) rejects a malformed body with 400 before the handler runs. The
  handler answers 404 when no session is registered under the body's
  `callSid` (server.js:62-64), and `text` is never checked.
  With string callSids from `start`, as modelled, a missing `callSid` gets
  404 too; see "## Left out" for other JSON values.
- A repeated `start` overwrites the earlier entry; it is not ignored
  (server.js:27-29).
- `stop` and telephony close remove the speaker entry without closing the
  engine socket (server.js:43-46, 50-55).
- Outbound frames carry the engine's `audio` unchanged. They have no
  `streamSid`, and there is no resampling or μ-law encoding (server.js:95-100).
- The engine `close` callback answers 200 whether the engine finished or
  was cancelled (server.js:104-107).
- A malformed JSON message is not caught (server.js:25).

Quirks that the contracts and lemmas prove:

- **Stale engine close.** An engine `close` event removes whatever speaker
  is currently registered for its call. A second `/speak` closes the first
  engine socket. When that socket's `close` event arrives, it unregisters
  the second engine socket. That socket stays open, barge-in can no longer
  reach it, and its request is still unanswered.
- **Stale stop.** `stop` on an older connection removes a newer
  connection's session when both use the same callSid.
- **Empty callSid.** Telephony close tests `callSid` for truthiness, so a
  connection whose callSid is `""` leaves its entries behind on close.
  `stop` deletes them. Close before any `start` (callSid null) also
  changes nothing.

## Model

| member | source | states |
|---|---|---|
| `Handlers.Initial` | server.js:16-17 | The server starts with both tables empty. No connection or engine socket is known, and no `close()` call, frame or response is logged. This state satisfies the invariant `Inv`. |
| `Handlers.OnConnection` | server.js:21-22 | A new connection gets the next identifier. Its `callSid` starts as null. Nothing else changes. |
| `Handlers.OnStart` | server.js:27-31 | `start` sets the connection's callSid and maps that callSid to this connection, overwriting any earlier entry. Other keys, `speakers`, the engines and all logs are unchanged. |
| `Handlers.OnMedia` | server.js:34-41 | Case 1: the track is `"inbound"` and a speaker is registered for the connection's callSid. That engine socket is appended to the `close()` log and its entry is removed; nothing else changes. Case 2: any other track, no callSid yet, or no speaker. The state is unchanged. |
| `Handlers.OnStop` | server.js:43-47 | `stop` removes the connection's callSid from both tables and closes no engine socket. Before any `start` it changes nothing. |
| `Handlers.OnTelephonyMessage` | server.js:24-48 | A telephony message never opens an engine, sends a frame or answers a request. An unknown event changes nothing. |
| `Handlers.OnTelephonyClose` | server.js:50-55 | Telephony close acts like `stop` only when the callSid is truthy. Before `start`, or with an empty callSid, it changes nothing. It closes no engine socket. |
| `Handlers.OnSpeak` | server.js:60-77 | Unknown or missing callSid: answered 404 at once, nothing else changes. Known callSid: the previously registered engine socket, if any, gets `close()`; the callSid maps to a new engine socket bound to the call's telephony socket; `sessions` is unchanged. This holds whatever `text` is, including missing or empty. |
| `Handlers.OnEngineMessage` | server.js:92-102 | A truthy `audio` adds exactly one frame to the telephony socket that `/speak` captured, with the payload unchanged. Missing, null or empty audio adds nothing. Only the frame log changes. |
| `Handlers.OnEngineClose` | server.js:104-107 | Engine close removes the speaker entry for its captured callSid, whichever socket is registered there. It records the close and answers its own request with 200. |
| `Handlers.Step` | server.js:21-107 | An event the runtime cannot deliver (on an unknown socket, or from an engine socket after its `close` event) changes nothing. The frame log only grows, by the frames `Sent` gives: at most one, and only for a deliverable engine message with truthy audio. |
| `Properties.ConnectionKeepsInv` | server.js:21-22 | Accepting a connection keeps `Inv`. |
| `Properties.TelephonyMessageKeepsInv` | server.js:24-48 | Every telephony message keeps `Inv`. |
| `Properties.TelephonyCloseKeepsInv` | server.js:50-55 | Telephony close keeps `Inv`. |
| `Properties.SpeakFoundKeepsInv` | server.js:66-77 | `/speak` for a known call keeps `Inv`. |
| `Properties.SpeakKeepsInv` | server.js:60-77 | Every `/speak` keeps `Inv`. |
| `Properties.EngineMessageKeepsInv` | server.js:92-102 | An engine message keeps `Inv`. |
| `Properties.EngineCloseKeepsInv` | server.js:104-107 | An engine close keeps `Inv`. |
| `Properties.StepKeepsInv` | server.js:21-107 | Every callback keeps `Inv`. |
| `Properties.RunKeepsInv` | server.js:21-107 | Every trace of callbacks keeps `Inv`. |
| `Properties.Reachable` | server.js:16-107 | Every state reachable from start-up satisfies `Inv`. |
| `Properties.RegisteredSpeakerIsLive` | server.js:66-77 | In every reachable state, a registered engine socket was opened for that call, has not had `close()` called, and has not closed. So no engine socket is registered for two calls. |
| `Properties.CloseCalledAtMostOnce` | server.js:34-68 | In every reachable state, `close()` has been called at most once on each engine socket. |
| `Properties.OneResponsePerRequest` | server.js:64-107 | In every reachable state, each `/speak` request has at most one response. A request has one exactly when it found no session (404) or its engine socket has closed (200). |
| `Properties.FramesOnlyGrow` | server.js:92-102 | No trace rewrites frames already sent; the frame log only grows. |
| `Properties.AudioFrames` | server.js:94-100 | Reference definition: the frames a run of engine messages should send, all to one telephony socket, at most one per message. |
| `Properties.FramesInArrivalOrder` | server.js:92-102 | Over any trace, interleaved with barge-in, `/speak`, `stop` or closes, the frame log grows by exactly the frames of the deliverable engine messages with truthy audio, in their arrival order. |
| `Properties.EngineAudioInOrder` | server.js:92-102 | A run of messages from one engine sends exactly one frame per truthy `audio`, with the payload unchanged, to the captured telephony socket, in arrival order. |
| `Properties.BargeInStopsSpeech` | server.js:34-41 | After `/speak` for a call, an inbound `media` on that call's connection closes the new engine socket and leaves no speaker registered. |
| `Properties.StopThenSpeakNotFound` | server.js:43-64 | After `stop`, `/speak` for the same callSid is answered 404 and opens no engine socket. |
| `Properties.StopLeavesSpeechOpen` | server.js:43-47 | `stop` unregisters the call's engine socket without closing it. The socket is then registered for no call, so barge-in cannot reach it. |
| `Properties.StaleCloseEvictsNewerSpeech` | server.js:104-105 | Two `/speak` requests for one call, then the first engine's `close` event: the second engine is no longer registered, is still open, is unreachable by barge-in, and its request is unanswered. |
| `Properties.StaleStopEvictsNewerSession` | server.js:43-53 | `stop` on an older connection removes the session that a newer connection registered for the same callSid. Telephony close on the older connection does the same when the callSid is non-empty. |
| `Properties.TelephonyCloseIdempotent` | server.js:50-55 | Closing a telephony connection twice has the same effect as closing it once. |
| `Server.BargeInOnBridge` | server.js:27-41 | On a fresh `Bridge`: accept a connection, `start` a call, `/speak`, then inbound `media`. The `close()` log is exactly the engine socket of the returned `/speak` request, and no speaker remains registered for the call. |
| `Server.Bridge.constructor` | server.js:16-17 | The fields start as `Handlers.Initial()` and are valid. |
| `Server.Bridge.Accept` | server.js:21-22 | Returns a fresh connection identifier. The new fields are `OnConnection` of the old ones; `Valid()` is kept. |
| `Server.Bridge.ReceiveTelephony` | server.js:24-48 | The tables are updated in place; the new fields are `OnTelephonyMessage` of the old ones; `Valid()` is kept. |
| `Server.Bridge.CloseTelephony` | server.js:50-55 | The new fields are `OnTelephonyClose` of the old ones; `Valid()` is kept. |
| `Server.Bridge.Speak` | server.js:60-77 | Returns the request's identifier. The new fields are `OnSpeak` of the old ones; `Valid()` is kept. |
| `Server.Bridge.ReceiveEngine` | server.js:92-102 | The new fields are `OnEngineMessage` of the old ones; `Valid()` is kept. |
| `Server.Bridge.CloseEngine` | server.js:104-107 | The new fields are `OnEngineClose` of the old ones; `Valid()` is kept. |

## Left out

- Express setup, `app.listen`, `dotenv` and creation of the WebSocket server (server.js:1-14). These are I/O setup. This includes the body parsing by `express.json()` (server.js:8), which answers 400 to a malformed body before `/speak` runs.
- The engine URL, voice id, model id and API-key header (server.js:70-75). These are configuration of a foreign library call; an engine socket is an opaque identifier.
- `JSON.parse` and `JSON.stringify` (server.js:25, 93, 96-100). Messages arrive as typed values. A malformed message, or a `start`/`media` message without its nested object, makes the source's handler throw; the model has no event for it and does not claim that such a message is dropped.
- Handlers.OnStart: assumes `start.callSid` is a string. In the source any JSON value becomes the key at server.js:28-29: a number, null, or `undefined` when the field is absent. A `/speak` without `callSid` would then find the `undefined` entry at server.js:62 and open an engine socket instead of answering 404. Telephony close would also skip a null or undefined callSid (server.js:51). The model has only string keys, so it cannot express these cases.
- Handlers.OnSpeak: the body's `callSid` is a string or missing. A JSON value of another type is modelled as missing, which gets 404 only because the model's `sessions` holds string keys alone (see the line above).
- Handlers.OnEngineMessage: assumes `audio` is a string or absent. The source forwards any truthy JSON value as the payload, numbers and objects included (server.js:94-98).
- The open-handshake sends (server.js:79-90): the synthesis request with the fixed voice settings (0.4, 0.8) and the end-of-input marker. These are fire-and-forget writes. The model keeps the request's `text` with the engine socket but does not log these writes.
- Console logging (server.js:11, 30, 37, 46).
- Asynchrony. Each callback is one atomic step, and any order of events is a trace. Scheduling and delivery races are not modelled beyond two runtime facts: events come only from accepted or opened sockets, and an engine socket emits nothing after its `close` event.
- Delivery on closed sockets. The frame log records `send()` calls. Whether `ws` delivers to a telephony socket that has already closed is not modelled. Messages on a telephony connection after it closes are not excluded either.
- Engine `error` events and the process exit they cause. `elevenWs` has no `error` listener. The `ws` library emits `error` when `close()` is called on a socket that is still connecting, that is, before its `open` event (server.js:79). That can happen at barge-in (server.js:38) or when a new `/speak` replaces the old speech (server.js:68). It also emits `error` when an engine connection fails. With no handler, Node throws that error and the process exits, which drops every call. The model assumes this never happens: every `close()` is harmless and is followed by a `close` event answered 200. So its lemmas, `BargeInStopsSpeech`, `StaleCloseEvictsNewerSpeech` and `OneResponsePerRequest` among them, describe only runs in which the process survives.
- `res.sendStatus` on a client that has already gone away is not modelled.
- Liveness. Whether every accepted `/speak` request is eventually answered depends on the engine closing its socket, so the model proves at most one response per request, not eventual delivery.
- Audio transcoding: the code has none. The payload is forwarded as received (server.js:98).
