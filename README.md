# Astra AI chat: a Dafny model of the streaming client and the worker

This project models the two pieces of logic in the Astra AI chat template:

- **The browser client's `sendMessage`.** It trims the input and ignores an empty send. It records the user turn and posts the whole history with the selected model. It reads the reply body chunk by chunk, turning the `data:` lines of each chunk into text fragments. That text is accumulated in `aiFullText` and shown in the assistant bubble. When the body is read to its end, the assistant turn is recorded. On failure, an apology is shown instead, and the controls are always re-enabled.
- **The edge worker.** It routes by path and method to the static assets, a 405, the chat handler or a 404. It picks the upstream model from a two-entry table, with a default and a fallback. It puts the system prompt in front of a conversation that has no system message, and answers 500 whenever the handler throws.

Files:

- `jstext.dfy` (module `JsText`) holds the JavaScript string operations the code relies on:
  - `trim`, with the ECMAScript white space and line terminators;
  - `split` on one character, and its inverse `join`;
  - `startsWith`;
  - the `||` fallback between an optional string and a default.
- `chatclient.dfy` (module `ChatClient`) holds the functions that specify what a reply body contributes, plus the `Session` class. The class's methods follow `sendMessage` statement by statement, with its two nested loops.
- `worker.dfy` (module `Worker`) holds routing, model selection, the system-prompt step and the chat handler.
- `wire.dfy` (module `Wire`) describes the request the client posts, as the worker receives it.

The client is not a buffered Server-Sent-Events reader:

- Each decoded chunk is split on `'\n'` by itself. Nothing is carried over to the next chunk, so a line cut by a chunk boundary is lost when neither half can be handled by itself (`LineCutAcrossChunksIsLost`).
- Lines are not grouped into frames by blank lines: every `data:` line is handled on its own.
- A `[DONE]` payload only ends the scan of its own chunk. The reader goes on until it reports `done` (`DoneEndsOnlyItsChunk`).
- The assistant turn is recorded even when its text is empty (`Recorded`, `DoneFirstChunkIsEmpty`).
- A non-2xx answer is read like any other body, because `fetch` does not reject on it.

Abstractions:

- **A reply** is `NetworkError` (`fetch` rejects), `NoBody` (`response.body` is null), or `Streamed(chunks, readFails)`. The chunks are already decoded, and `readFails` says whether a read throws after them.
- **`JSON.parse`** is a parameter `parse: string -> Json`. `Json` is `Unparsable`, covering every payload whose handling throws: text that is not JSON, and the value `null`, whose `.response` throws. Otherwise it is `Obj(response, choices)`, reduced to the string fields the client reads.
- **On the worker side**, the request body is `Malformed` when `request.json()` throws, or `ChatBody(messages?, model?)` otherwise. Whether `env.AI.run` throws is a parameter `aiThrows`.
- **A bubble** is recorded as its role and its current text.

## Model

| member | source | states |
|---|---|---|
| JsText.TrimStartSpec | public/chat.js:68 | the leading part of `trim`: the result is the longest suffix of the input that does not start with white space, and everything before it is white space |
| JsText.TrimEndSpec | public/chat.js:68 | the trailing part of `trim`: the result is the longest prefix that does not end with white space, and everything after it is white space |
| JsText.Trim | public/chat.js:23 | `trim` never lengthens its input and leaves no white space at either end |
| JsText.TrimIsCore | public/chat.js:68 | `trim` gives exactly the part between the leading and the trailing white space, for every way of writing the input as white space, core, white space |
| JsText.TrimEmptyIff | public/chat.js:23-26 | an input trims to empty, and the send is dropped, exactly when it is all white space |
| JsText.TrimIdempotent | public/chat.js:23 | trimming a trimmed text changes nothing |
| JsText.Split | public/chat.js:64 | `split` always yields at least one piece |
| JsText.SplitSeparatorFree | public/chat.js:64 | no piece of a split contains the separator |
| JsText.JoinSplit | public/chat.js:64 | joining the pieces of a split with the separator gives back the chunk |
| JsText.SplitJoin | public/chat.js:64 | splitting a join of separator-free pieces gives back those pieces, so a split is the only such decomposition |
| JsText.OrElse | public/chat.js:74 | `a \|\| b` is `a` when `a` is a non-empty string and `b` otherwise |
| ChatClient.Fragment | public/chat.js:71-74 | a payload that cannot be handled yields nothing; otherwise a non-empty `response` wins, then the first choice's delta content (`FirstDeltaContent`), then `""` |
| ChatClient.Payload | public/chat.js:68 | `line.slice(5).trim()`: never longer than the line after `data:`, with no white space left at either end; `PayloadStripsPadding` pins it down exactly |
| ChatClient.LineFragments | public/chat.js:66-84 | a chunk's lines yield no more fragments than there are lines; the lines that contribute nothing are given by `DoneEndsLineScan` and `SilentLineIgnored`, and what a handled data line contributes by `DataLineContributes` |
| ChatClient.ChunkFragments | public/chat.js:63-84 | one chunk's fragments: `LineFragments` of its split on `'\n'`, no more fragments than pieces; `SingleLineChunk` gives the case without a line break |
| ChatClient.StreamFragmentsAppend | public/chat.js:59-85 | `StreamFragments`, the outer `while` loop's fragments (every chunk's, in order), treats chunks independently: the fragments of a body read in two parts are those of the first part followed by those of the second |
| ChatClient.StreamTextAppend | public/chat.js:59-85 | `StreamText`, the accumulated text (the concatenation of `StreamFragments`), of a body read in two parts is the first part's text followed by the second's; in particular, reading on from a chunk adds that chunk's text and then the rest's |
| ChatClient.DoneEndsLineScan | public/chat.js:66-69 | the lines after a `[DONE]` line in a chunk contribute nothing |
| ChatClient.DoneEndsOnlyItsChunk | public/chat.js:59-69 | a `[DONE]` line cuts only its own chunk: the chunks before and after it are still scanned in full |
| ChatClient.SilentLineIgnored | public/chat.js:66-82 | a line that fails `IsDataLine` (no `data:` prefix), or with a payload that is neither `[DONE]` nor parsable, can be removed anywhere without changing the fragments |
| ChatClient.DataLineContributes | public/chat.js:66-78 | a data line whose payload is not `[DONE]` and parses adds its fragment exactly in its place, between the fragments of the lines before it and those after it, when no `[DONE]` line comes before it |
| ChatClient.PayloadStripsPadding | public/chat.js:67-68 | a line `data:` + white space + payload + white space is a data line (`IsDataLine`, the `startsWith('data:')` test) whose payload is exactly that payload |
| ChatClient.SingleLineChunk | public/chat.js:64 | a chunk without a line break is scanned as one line |
| ChatClient.LineCutAcrossChunksIsLost | public/chat.js:59-68 | a data line cut by a chunk boundary into two unusable halves contributes nothing, although the same text in one chunk yields its fragment |
| ChatClient.DoneFirstChunkIsEmpty | public/chat.js:66-69 | a chunk opening with a padded `[DONE]` line contributes nothing whatever follows, and a body of only that chunk accumulates the empty text |
| ChatClient.Recorded | public/chat.js:86-90 | an assistant turn is recorded exactly when the exchange did not fail (`Fails`: `fetch` rejects, there is no body, or a read throws), and it carries the full accumulated text, even when empty |
| ChatClient.Shown | public/chat.js:56-90 | the bubbles after the user's: the assistant bubble holding the accumulated text once a body is being read, and the apology last whenever the exchange failed (`Fails`) |
| ChatClient.Session.constructor | public/chat.js:17 | the page starts with an empty history and chat box and enabled controls |
| ChatClient.Session.ReadBody | public/chat.js:51-85 | reading to `done` leaves `aiFullText` equal to `StreamText`, the in-order concatenation of every chunk's fragments, shown in one new assistant bubble |
| ChatClient.Session.ScanChunk | public/chat.js:63-84 | scanning one chunk appends its fragments to `aiFullText`, and the assistant bubble shows the text accumulated so far |
| ChatClient.Session.SendMessage | public/chat.js:22-98 | an input that trims to empty changes nothing; otherwise the input is cleared, the trimmed user turn is recorded and sent with the history, the history and bubbles grow by `Recorded` and `Shown`, and the controls are released |
| ChatClient.Session.Exchange | public/chat.js:29-97 | a non-empty send: one user turn before the request, which carries it, then the recorded and shown results of the reply, with the controls released |
| ChatClient.Session.Submit | public/chat.js:29-47 | the user bubble is added, the input cleared, the controls disabled, the user turn pushed, and the request carries the history including it |
| ChatClient.Session.Receive | public/chat.js:49-97 | the reply adds `Recorded` to the history and `Shown` to the bubbles, leaves the request and input alone, and the `finally` block releases the controls on every path |
| Worker.RouteOf | src/index.ts:21-37 | a path outside `/api/` goes to the assets whatever the method; `/api/chat` is the chat handler for POST and 405 otherwise; any other `/api/` path is 404; each exactly when |
| Worker.SelectModel | src/index.ts:50-56 | a missing model selects the `astra-2.5` id, a known key its table entry, an unknown key the `astra-2.5` id; the result is always one of the table's ids |
| Worker.WithSystemPrompt | src/index.ts:59-62 | the result always has a system message (`HasSystemMessage`, the `some` test at line 60); it is the input unchanged when the input has one, and the system prompt followed by the input otherwise |
| Worker.WithSystemPromptIdempotent | src/index.ts:59-62 | preparing an already prepared conversation changes nothing |
| Worker.HandleChat | src/index.ts:44-86 | with `MessagesOf` giving the destructured `messages` (`[]` when absent, line 50), the answer is 500 exactly when the body cannot be read or the model call throws, and 200 with the selected model and prepared messages otherwise |
| Worker.Fetch | src/index.ts:16-38 | the worker's answer for each of the four routes |
| Worker.ServerErrorOnlyFromHandler | src/index.ts:79-84 | a 500 answer comes only from a POST to `/api/chat` whose body or model call throws |
| Wire.RoleName | public/chat.js:5-8 | no client role is serialised as `system` |
| Wire.AsMessages | public/chat.js:43-46 | the posted messages are the history's turns, one for one and in order |
| Wire.ClientRequestGetsPrompt | src/index.ts:50-62 | for the body `AsBody` the client posts (`{ messages: history, model: selectedModel }`), the conversation never holds a system turn, so the worker always puts the system prompt in front of it, and a known model key selects its table entry |

## Left out

- The DOM: `addBubble`'s markup (including the unescaped use of the text in `innerHTML`), scrolling, the text area's auto-resize, and the click and key listeners. A bubble is its role and text, and focus and the typing indicator are flags.
- `fetch`, the stream reader and `TextDecoder`: chunks are already-decoded strings. The non-streaming `decode(value)` can split a multi-byte character across two chunks, and this is not modelled.
- The internals of `JSON.parse` and `JSON.stringify`: a payload is whatever `parse` says it is. A `response` or `content` that is present but not a string, such as a number, is not modelled; only string fields and their absence are.
- Strings are sequences of Unicode scalar values, not UTF-16 code units.
- The suspension at each `await`: a send is one atomic step, so sends that overlap are not modelled. `sendMessage` itself has no in-flight check. The disabled text area and button keep its click and key listeners from firing while a send runs.
- `console.error` logging in the client and the worker.
- `env.ASSETS.fetch`, `env.AI.run` and the upstream stream itself: the assets answer is a constant, and an `aiThrows` parameter says whether the model call throws. Errors raised while the upstream stream is being relayed are outside the handler's `try` and are not modelled.
- The response headers, the JSON error body of the 500 answer, and URL parsing: a request is given by its path and method.
- Worker.SelectModel: does not model keys inherited from `Object.prototype` (such as `toString`), whose lookup gives a function rather than an id.
- Worker.HandleChat: a `messages` value that is not an array (a string is spread into characters, `null` throws), and a message that is `null`, are not modelled. A body whose destructuring throws is `Malformed`. `model: null` looks up the key `"null"`, which is modelled as an unknown key.
- Nothing removes the user turn from the history when an exchange fails. The model keeps it there, as the code does.
