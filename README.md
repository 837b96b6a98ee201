# Call bridge between a voice relay and a webhook

This project models the per-connection call bridge in `server.js`. A telephony
relay (Twilio ConversationRelay) opens a WebSocket connection for each call.
The bridge receives transcribed speech on that connection and posts each
utterance to a webhook. It then speaks the webhook's answer back as frames.
When the connection closes, it tells the webhook that the call has ended.

- `protocol.dfy` (module `Protocol`) defines the values:
  - relay messages (`type`, `text`, `from`);
  - the webhook's answer (`Failed`, or a body that is null or has `action`, `message` and `transferTo`);
  - the webhook's request body;
  - the four outbound frames (`text`, `end_of_response`, `transfer`, `end`).
- `framing.dfy` (module `Framing`) covers framing:
  - how one spoken turn becomes frames;
  - how a reader of the stream the bridge writes splits it back into turns;
  - both directions of that round trip;
  - the fact that `transfer`/`end` frames close a turn.
- `dispatch.dfy` (module `Dispatch`) holds the handler's decisions as functions:
  - which messages are acted on (`type === 'speech'` with truthy `text`);
  - the request posted, including `from || 'inconnu'`;
  - the termination request;
  - the action table (`transfer`, `hangup`, anything else, or a thrown error with its fixed apology);
  - `Step`, the effects of one message.
- `bridge.dfy` (module `Bridge`) holds the class `CallBridge`:
  - the connection's `callId` is fixed at construction;
  - `ws.send` appends to `outbox`;
  - webhook posts append to `requests`;
  - `HandleMessage` and `HandleClose` follow the two handlers' code;
  - `Respond` holds the reply branches, with their early returns;
  - the invariant `Valid()` is kept across any sequence of calls.

The connection id (`Date.now().toString()` in the source) is a constructor parameter. The webhook's answer to a turn is a parameter of `HandleMessage`.

## Model

| member | source | states |
|---|---|---|
| `Framing.Encode` | server.js:60-97 | A turn is exactly two frames, or three when it hands off or hangs up. The first is `text` with the turn's token and the second is `end_of_response`. No later frame is `text` or `end_of_response`. A `transfer` or `end` frame can only be the last one. A hand-off ends with `transfer` carrying its target, and a hang-up ends with `end`. |
| `Framing.EncodeAllAppend` | server.js:45-100 | Sending the turns of successive messages one message at a time gives the same stream as sending them all at once. |
| `Framing.EncodeAllStartsWithText` | server.js:62-65 | A stream of whole turns is empty exactly when there are no turns. Otherwise it begins with the first turn's `text` frame. |
| `Framing.DecodeEncodeAll` | server.js:60-97 | The bridge's frame stream, split back into turns by a reader of that stream, gives exactly the turns that were sent, in order. |
| `Framing.EncodeDecodeAll` | server.js:60-97 | Any frame stream that splits into whole turns is exactly the frames of those turns. With `DecodeEncodeAll`, streams and turn sequences correspond one to one. |
| `Framing.TerminalClosesTurn` | server.js:66-80 | In a stream of whole turns, each `transfer` or `end` frame comes directly after an `end_of_response`. The only frame that can follow it is a new turn's `text`. |
| `Dispatch.Accepts` | server.js:48 | A message is ignored when its `type` is not `'speech'`, and when its `text` is absent or empty. Speech with non-empty text is always acted on. |
| `Dispatch.Throws` | server.js:51-91 | The round trip throws, and so ends in the `catch` block, when the webhook request is rejected or the body is `null` (reading `reply.action` fails). When it does not throw, the outcome is a body whose reply fields can be read. |
| `Dispatch.TurnRequest` | server.js:52-56 | The webhook request for an accepted message carries the connection's `callId` and the message's non-empty `text`. Its `from` is the message's `from` when that is non-empty, otherwise `'inconnu'`, so it is never empty. |
| `Dispatch.CloseRequest` | server.js:104-107 | The termination request carries the same `callId`, the text `'__CALL_ENDED__'` and no `from` field. It never equals a speech request, even one whose text is the sentinel. |
| `Dispatch.Reaction` | server.js:51-98 | A rejected request or a null body makes the turn the apology "Excusez-moi, je rencontre un petit souci technique. Pouvez-vous patienter un instant ?", followed by nothing. Otherwise the turn's token is `reply.message`. The turn hands off to `reply.transferTo` if and only if `action` is `'transfer'`, and hangs up if and only if `action` is `'hangup'`. |
| `Dispatch.Step` | server.js:45-100 | A message causes no webhook request and no frame exactly when it is not speech with non-empty text. An accepted message posts exactly its `TurnRequest` and sends exactly the frames of one turn, its `Reaction`. |
| `Dispatch.StepSpeaksOneTurn` | server.js:48-98 | The frames sent for one message read back as the single turn `Reaction(o)` when the message is accepted, and as no turn otherwise. |
| `Dispatch.ReactionFrames` | server.js:60-97 | The exact frames for each outcome. Error: apology `text`, then `end_of_response`. `'transfer'`: `text(message)`, `end_of_response`, `transfer(transferTo)`. `'hangup'`: `text(message)`, `end_of_response`, `end`. Any other or absent action: `text(message)`, `end_of_response`. |
| `Bridge.CallBridge.constructor` | server.js:40-43 | A new connection has its id fixed, nothing sent, nothing posted, and satisfies `Valid()`. |
| `Bridge.CallBridge.Send` | server.js:62-66 | `ws.send` appends exactly one frame to the outbox. |
| `Bridge.CallBridge.Post` | server.js:52-56 | A webhook post appends exactly one request to the log. |
| `Bridge.CallBridge.Respond` | server.js:58-97 | The reply part of the handler, including its `catch` path, appends exactly the frames of `Reaction(o)` to the outbox, in send order, and changes nothing else. |
| `Bridge.CallBridge.HandleMessage` | server.js:45-100 | The outbox and the request log grow by exactly `Step`'s frames and requests, and nothing else changes. An accepted message adds `Reaction(o)` to the spoken turns. `Valid()` is preserved: the outbox is the spoken turns' frames, there is one speech request per spoken turn, and every request carries `callId`. |
| `Bridge.CallBridge.HandleClose` | server.js:102-108 | Closing posts exactly one `CloseRequest(callId)`. Whatever the request's outcome, no frame is sent and nothing else changes. `Valid()` is preserved. |
| `Bridge.OutboxReadsAsTurns` | server.js:45-100 | After any sequence of handled messages and closes, the outbox reads back as exactly the spoken turns. Every `transfer` or `end` frame in it directly follows an `end_of_response`. |

## Left out

- The HTTP routes `/incoming-call` (static call-setup markup) and `/health` (server.js:11-34) are static output. They are not part of the core.
- Server setup, environment loading, the port and `listen` (server.js:1-9, 36-38, 111-116) are configuration.
- The webhook transport is left out. Its outcome is a parameter: `Failed` for any rejected request, or the response body.
- Serialising frames with `JSON.stringify` is left out. A frame is a datatype, and an absent token or handoff stands for the key that serialisation omits.
- `JSON.parse` of the incoming data (server.js:46) is a foreign call, and the model receives an already-parsed message. On malformed data it throws before the `try` block. The message listener is `async`, so the exception becomes a rejected promise that nothing handles: the server installs no `unhandledRejection` handler. On Node 15 and later, an unhandled rejection terminates the process by default, which drops every open call. The model does not represent this path.
- A message that parses to JSON `null` is not represented by `Inbound`. Reading `message.type` (server.js:48) then throws outside the `try` block, before anything is posted or sent. As with a `JSON.parse` failure, the rejection is unhandled, and on Node 15 and later this terminates the process by default. The model does not represent this path.
- Message fields (`type`, `text`, `from`) and reply fields (`action`, `message`, `transferTo`) are modelled as strings or absent. Other JSON values are not modelled:
  - a non-zero numeric `text` is truthy and forwarded as is, while a `text` of `0` is falsy and the message is ignored (server.js:48);
  - an object `message` is serialised as JSON in the `transfer` and `hangup` branches;
  - in the default branch, the log line (server.js:84) first converts `message` to a string, which throws for some objects (for example one whose `toString` is not callable), and the `catch` block (server.js:91-97) then sends the apology;
  - a JSON `null` `message` or `transferTo` is written by serialisation as `"token":null` or `"handoff":null`, not as an omitted key, so `None` does not stand for it.
- A non-object, non-null body (for example a string) reads as a reply whose fields are all absent. `Body.Reply(None, None, None)` stands for it.
- `ws.send` failures are not modelled. The catch block would also catch one raised inside the try block.
- Each handler invocation is modelled as one atomic step, run in arrival order. In the source the handlers are `async`, and the only `await` is the webhook call (server.js:52). A turn's frames are all sent after that await with no await between them, so the frames of two turns never interleave and the outbox is always whole turns. Two overlapping calls can finish out of order, though: a later message's turn can be spoken before an earlier one's, and a request is logged before its turn is spoken. `SpeechPosts(requests) == |turns|` in `Valid()` therefore holds only between handler runs. The close request is fire-and-forget, and its outcome is ignored.
- The clock behind the connection id (`Date.now()`, server.js:43) is left out. The id is a constructor parameter, so nothing about its uniqueness across connections is modelled.
- The console logging is left out.
