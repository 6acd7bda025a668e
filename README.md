# Chat front end: socket wrapper, validators and message handlers in Dafny

This project models the logic of a chat front end that talks to an agent backend
over a WebSocket:

- `WebSocketService` (`websocket.dfy`) is the reconnecting socket wrapper. It owns a
  nullable socket and a reconnect counter. It schedules reconnects with linear
  back-off up to five attempts. `send` fails fast unless the socket is open, and frames
  that do not parse are dropped before they reach the single message callback.
  The wrapper is a class. Browser events are methods the environment calls: a socket
  opens, errors or closes, a frame arrives, a reconnect timer fires. Every socket ever
  created is kept, because an old socket still carries the `onclose` handler that
  schedules reconnects.
- `Validations` (`validations.dfy`) holds the file, message, email and password
  validators. They are total functions returning `None` (valid) or the first error.
- `FileUpload` (`file_upload.dfy`) holds the size and MIME gates of the upload service
  and the icon classifier.
- `ModelService` (`model_service.dfy`) holds `getDefaultModel`: a first-match loop over
  the fetched provider list.
- `ChatContainer`, `Chat` and `ChatInput` (`chat_container.dfy`, `chat.dfy`,
  `chat_input.dfy`) model the component handlers. Each decides which inbound frames
  reach the message list and in what shape, and builds the outbound frames. The React
  state of each component is a class. Its message list is append-only, and the frames
  handed to the socket manager are recorded in a list.
- Helper modules: `Wrappers` (Option, Result), `Text` (JavaScript `trim`, `\s`,
  `startsWith`, `endsWith`, `includes`, ASCII `toLowerCase`), `Seqs` (`Array.some`),
  `Json` (parsed values, property reads, truthiness), `Files` (the `File` fields read)
  and `Outbound` (the outbound frame and its JSON object, with a read-back round trip).

`JSON.parse` and `JSON.stringify` are parameters of the socket wrapper. The parser is
partial (`string -> Option<Json.Value>`) and the serialiser is opaque. The results of
network calls are parameters of the methods that use them: the provider list or a
fetch failure, and the upload identifier or error.

Four behaviours of the code are easy to miss:

- `connect` always creates a new socket, even when one is open.
- `disconnect` cancels no timer. The close event of the socket it closes still
  schedules a reconnect, and that reconnect installs a new socket.
  `WebSocket.DisconnectThenReconnect` shows this.
- `onMessage` installs the callback only on the current socket. It is not carried to
  the socket of a later reconnect. `WebSocket.HandlerLostOnReconnect` shows this.
- The `agent_log` filter lives in the chat components, not in the socket wrapper.

## Model

| member | source | states |
|---|---|---|
| `Text.TrimSpec` | src/lib/validations.ts:30 | `trim` keeps a contiguous middle part and removes only whitespace around it; the kept part neither starts nor ends with whitespace |
| `Text.TrimEmptyIffBlank` | src/lib/validations.ts:30 | `s.trim()` is empty (falsy) exactly when every character of `s` is whitespace |
| `Text.TrimIdempotent` | src/components/chat/ChatInput.tsx:20 | trimming an already trimmed text changes nothing |
| `Text.Contains` | src/services/fileUploadService.ts:58 | `includes` holds exactly when the substring occurs at some position |
| `Seqs.Any` | src/lib/validations.ts:11-16 | `some` holds exactly when some element passes the test |
| `Validations.ValidateFile` | src/lib/validations.ts:7-22 | size above `maxSize` gives the size error before any type check; within size, `None` exactly when some allow-list entry matches, else the type error |
| `Validations.EmptyAllowListRejects` | src/lib/validations.ts:11-20 | with an empty allow-list every file within the size limit is refused for its type |
| `Validations.ExtensionMatchIgnoresCase` | src/lib/validations.ts:12-14 | an extension entry matches the same files whatever the letter case of the entry and of the file name |
| `Validations.ValidateMessage` | src/lib/validations.ts:26-39 | blank messages are refused before any length check; the length limit counts the untrimmed text; `None` exactly when non-blank and within the limit |
| `Validations.MessageLengthCountsWhitespace` | src/lib/validations.ts:34-36 | surrounding spaces count toward the limit: `" a "` exceeds a limit of 1 while `"a"` does not |
| `Validations.WellShapedIffPattern` | src/lib/validations.ts:43 | the direct check (no whitespace, exactly one '@' after a non-empty local part, a '.' inside the domain) accepts exactly what `^[^\s@]+@[^\s@]+\.[^\s@]+$` accepts |
| `Validations.ValidateEmail` | src/lib/validations.ts:42-54 | empty gives "required"; otherwise `None` exactly when the pattern matches, else "invalid format" |
| `Validations.ValidatePassword` | src/lib/validations.ts:57-79 | checks in order: empty, shorter than 8, no ASCII lower-case, no upper-case, no digit; returns the first failure; `None` exactly when all pass |
| `FileUpload.IsValidFileSize` | src/services/fileUploadService.ts:88-90 | accepts exactly the sizes up to 10485760 bytes, the limit included |
| `FileUpload.IsValidFileType` | src/services/fileUploadService.ts:72-86 | accepts exactly the nine listed MIME types, by whole-string equality |
| `FileUpload.TypeTestIsExact` | src/services/fileUploadService.ts:84-86 | an upper-case spelling, a type with parameters and an extension are refused; `text/plain` is accepted |
| `FileUpload.GlyphsDistinct` | src/services/fileUploadService.ts:54-60 | the four emoji strings returned are pairwise different, so the returned string identifies the icon |
| `FileUpload.GetFileIcon` | src/services/fileUploadService.ts:54-60 | first match wins: 'image/' prefix gives the picture, PDF the page, plain text the memo, a type containing "word" the page, anything else the paperclip |
| `FileUpload.AcceptedTypesHaveIcons` | src/services/fileUploadService.ts:54-82 | every accepted type gets an icon other than the paperclip; the two Word types get the page through the "word" substring test |
| `FileUpload.EmptyTypeGetsPaperclip` | src/services/fileUploadService.ts:54-59 | the empty type gets the paperclip |
| `FileUpload.GatesAgreeWithValidator` | src/services/fileUploadService.ts:84-90 | validating with the 10 MiB limit and the nine accepted types accepts a file exactly when both upload gates do, and reports the size error exactly when the size gate refuses it |
| `ModelService.GetDefaultModel` | src/services/modelService.ts:58-85 | the first provider, in order, with a non-empty `configs` is chosen and every earlier one has none; its first config's id, name, model, temperature and system prompt and the provider's name are copied, and the record is active; `None` when no provider has configs or the fetch failed |
| `Outbound.RoundTrip` | src/components/chat/ChatContainer.tsx:181-186 | every outbound frame is read back unchanged from the JSON object built for it, file identifiers included verbatim and in order |
| `Outbound.FilesInObject` | src/components/chat/ChatContainer.tsx:183-185 | the serialised object has a `files` key exactly when the frame has file identifiers, and an `llm_name` key exactly when a name is known (an `undefined` property is dropped by serialisation) |
| `WebSocket.BackoffIsLinear` | src/lib/websocket.ts:63-68 | the n-th reconnect since the last open waits `1000 * n` ms |
| `WebSocket.BackoffIncreasingAndBounded` | src/lib/websocket.ts:63-68 | the delays since the last open strictly increase and stay within 1000 to 5000 ms |
| `WebSocket.WebSocketService.constructor` | src/lib/websocket.ts:1-10 | no socket, counter 0, ceiling 5, base delay 1000, nothing scheduled, sent or delivered |
| `WebSocket.WebSocketService.IsConnected` | src/lib/websocket.ts:72-74 | connected exactly when a current socket exists and is open |
| `WebSocket.WebSocketService.Connect` | src/lib/websocket.ts:12-33 | a fresh connecting socket without a message handler becomes the current one; if the constructor throws, nothing changes |
| `WebSocket.WebSocketService.SocketOpened` | src/lib/websocket.ts:17-20 | an open resets the counter to 0 and resolves the pending promise |
| `WebSocket.WebSocketService.SocketErrored` | src/lib/websocket.ts:26-28 | an error rejects the pending promise and changes nothing else |
| `WebSocket.WebSocketService.SocketClosed` | src/lib/websocket.ts:22-24 | the close of any socket runs `handleReconnect`; below 5 the counter grows by one and a reconnect is scheduled after `1000 * counter` ms; at 5 nothing is scheduled |
| `WebSocket.WebSocketService.HandleReconnect` | src/lib/websocket.ts:63-70 | below the ceiling, bump the counter and schedule one timer with delay `reconnectDelay * counter`; at the ceiling nothing changes; the counter never exceeds 5 |
| `WebSocket.WebSocketService.TimerFired` | src/lib/websocket.ts:66-68 | a fired timer leaves the queue and runs `connect` |
| `WebSocket.WebSocketService.Disconnect` | src/lib/websocket.ts:35-40 | without a socket nothing changes; with one it is asked to close and forgotten; afterwards not connected |
| `WebSocket.WebSocketService.Send` | src/lib/websocket.ts:42-48 | succeeds exactly when connected and then writes exactly the serialised message; otherwise "not connected" and nothing written |
| `WebSocket.WebSocketService.OnMessage` | src/lib/websocket.ts:50-52 | installs the callback on the current socket, replacing the earlier one; without a socket changes nothing |
| `WebSocket.WebSocketService.FrameArrived` | src/lib/websocket.ts:52-59 | a frame on a socket with a handler that parses is delivered to that handler after all earlier ones; an unparsable frame is dropped |
| `WebSocket.ReconnectsGiveUp` | src/lib/websocket.ts:63-70 | against a server refusing every connection the retries wait 1000, 2000, 3000, 4000, 5000 ms, and then nothing more is scheduled |
| `WebSocket.DisconnectThenReconnect` | src/lib/websocket.ts:22-40 | after `disconnect` the wrapper is not connected, yet the close event's reconnect later yields an open socket again |
| `WebSocket.HandlerLostOnReconnect` | src/lib/websocket.ts:15-61 | a callback registered before a reconnect receives the frames of the old socket only; an unparsable frame reaches no callback |
| `ChatContainer.InboundEntry` | src/components/chat/ChatContainer.tsx:66-86 | 'agent_log' frames and null frames are not appended; every other frame is appended unchanged |
| `ChatContainer.UserMessageFor` | src/components/chat/ChatContainer.tsx:165-175 | the user message carries the input and one placeholder file entry per id, in order, with empty names and size 0 |
| `ChatContainer.OutboundFor` | src/components/chat/ChatContainer.tsx:181-186 | the frame carries the input, the first config's name (absent if none), the provider, and `files` exactly when there are ids, equal to them |
| `ChatContainer.FileIdsReachTheWire` | src/components/chat/ChatContainer.tsx:181-190 | uploaded ids passed to a send come back verbatim from the JSON object of the sent frame |
| `ChatContainer.ChatContainerState.constructor` | src/components/chat/ChatContainer.tsx:17-27 | empty message list, no session, no model, not uploading |
| `ChatContainer.ChatContainerState.StartSession` | src/components/chat/ChatContainer.tsx:53-98 | the start-up effect sets the session id and the model configuration |
| `ChatContainer.ChatContainerState.ReceiveFrame` | src/components/chat/ChatContainer.tsx:66-86 | appends at the end exactly what `InboundEntry` keeps; earlier entries are untouched; no 'agent_log' entry is ever shown |
| `ChatContainer.ChatContainerState.HandleSendMessage` | src/components/chat/ChatContainer.tsx:152-194 | without a model or a session nothing is appended or sent; otherwise exactly one user message is appended and one frame sent |
| `ChatContainer.ChatContainerState.BeginUpload` | src/components/chat/ChatContainer.tsx:122-137 | the uploading flag goes up; without a session the call fails with "No session ID available", uploads nothing and the flag is down again; otherwise the service is called once with the file and the session and the call stays in flight with the flag up |
| `ChatContainer.ChatContainerState.UploadSettled` | src/components/chat/ChatContainer.tsx:133-149 | an upload in flight settles: it returns the service's identifier with that upload's file name, or the service's error; it leaves the in-flight set and the flag goes down, even with other uploads still in flight |
| `ChatContainer.OverlappingUploads` | src/components/chat/ChatContainer.tsx:122-149 | with two uploads in flight, the first to settle lowers the flag while the second is still running, and the second still returns its own file name |
| `Chat.Normalise` | src/components/Chat.tsx:29-62 | drops 'agent_log' and null frames; wraps a non-empty string `response`, or a truthy `response` when `agents_trace` is truthy, as an agent answer; keeps every other frame unchanged |
| `Chat.NormaliseExamples` | src/components/Chat.tsx:34-48 | a log frame is dropped, an answer with response "42" is wrapped, an answer with an empty response is shown unchanged |
| `Chat.ChatState.constructor` | src/components/Chat.tsx:8-12 | empty messages and input, no model |
| `Chat.ChatState.SetInput` | src/components/Chat.tsx:186 | typing replaces the input |
| `Chat.ChatState.SetModelConfig` | src/components/Chat.tsx:64-72 | the default model found at start-up, when there is one, becomes the configuration |
| `Chat.ChatState.ReceiveFrame` | src/components/Chat.tsx:29-62 | appends at most one entry, at the end, as `Normalise` says |
| `Chat.ChatState.HandleSendMessage` | src/components/Chat.tsx:99-132 | sends only when the input is not blank and the configuration has a provider and a model; then appends the user's text, sends the untrimmed text with the config's name and provider, and clears the input; otherwise nothing changes |
| `ChatInput.ChatInputState.constructor` | src/components/chat/ChatInput.tsx:10-15 | empty input, nothing passed on |
| `ChatInput.ChatInputState.Change` | src/components/chat/ChatInput.tsx:31 | typing replaces the input |
| `ChatInput.ChatInputState.HandleSubmit` | src/components/chat/ChatInput.tsx:17-23 | when the input is not blank and the box is enabled at the time of the submit, passes the trimmed text once and empties the input; otherwise leaves both unchanged; everything passed on is non-empty and trimmed |
| `ChatInput.SubmittedTextIsTrimmed` | src/components/chat/ChatInput.tsx:19-20 | the text passed on is non-empty and neither starts nor ends with whitespace |

## Left out

- Timers and the browser socket are not real. `setTimeout` is a queue of pending
  delays, and the environment chooses which timer fires. Socket events happen only
  when their method is called. Event order is what the browser allows: an open only
  for a connecting socket, a close only for a socket not yet closed, frames only on an
  open socket.
- The `connect` promise is a settlement per socket, not a value a caller awaits.
  Rejections from timer reconnects are only logged in the source, and are not modelled.
- Exceptions thrown by a message callback are not modelled: the source catches them
  with the parse errors and only logs them. Nothing about callback code is modelled;
  callbacks are identified by a number.
- `JSON.parse` and `JSON.stringify` are parameters. No property is proved about them.
- Validations.ValidateFile: `toLowerCase` is modelled for ASCII letters only. The
  source uses full Unicode case mapping.
- Validations.ValidateMessage: lengths count Unicode characters. JavaScript counts
  UTF-16 code units, so a character outside the Basic Multilingual Plane counts twice
  there.
- Validations.ValidatePassword: the same difference in how length is counted.
- Error texts are tags (`ValidationError`). The formatted size (`formatFileSize` uses
  floating point) and the joined type list are not produced. `formatFileSize` and
  `validateUrl` (which relies on the host URL parser) are not modelled.
- Network and storage calls are inputs, not modelled: `login`, `getToken`, `logout`,
  `uploadFile`, `uploadMultipleFiles`, `getAvailableModels` and the upload API route.
- The start-up effects of both chat components are reduced to setters:
  `ChatContainer.ChatContainerState.StartSession` and `Chat.ChatState.SetModelConfig`.
  Left out are log-in with fixed credentials, the clock-based session and request ids,
  and the `isMounted` guards (the component is taken as mounted).
- The `modelError` text that `Chat.tsx` shows when no default model is found is not
  modelled; in that case `Chat.ChatState.SetModelConfig` is simply not called.
- `WebSocket.WebSocketService.HandleReconnect` is private in the source. Dafny classes
  have no private members, so the model only documents that `SocketClosed` is its
  one caller.
- The socket manager the chat components use (`websocketManager`) is not part of this
  model. It is a recorder of the frames handed to `sendMessage`; its own failures are
  not modelled.
- Chat.ChatState.HandleSendMessage: appends to the list as rendered
  (`setMessages([...messages, …])`, not the functional update). The model assumes a
  re-render between any two events, so a frame that arrives in the same batch is not
  lost, as it could be in React.
- Rendering (`ChatDisplay`, `ChatMessage`, `ChatPane`, the JSX), the WebSocket context,
  the environment lookup and the constants file are not part of this model.
