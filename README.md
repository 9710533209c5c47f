# Live tab interpretation: session router, recognition client and subtitle overlay

A Dafny model of the three stateful pieces of a browser extension that streams
a tab's audio to a speech-recognition service and shows the returned
transcripts as subtitles, speaking the final ones aloud.

- **Background page** (`background.dfy`, module `Background`). The table
  `activeDeepgramConnections` maps a tab id to its connection. The runtime
  message listener handles three commands:
  - `start-deepgram-session` retires any existing session of the tab, then opens a new one.
  - `audio-chunk` forwards a frame only to an OPEN socket.
  - `stop-deepgram-session` closes and deletes the session, or fails.

  Each session registers a close/error callback. It acts only while the tab
  still has an entry. The state is the datatype `State`: the table, every
  socket created so far (a socket is named by its creation index) and the
  messages sent to tabs. The functions `Start`, `Chunk`, `Stop`,
  `HandleCommand`, `CloseOrError` and the socket-event functions are the
  specification. The class `Router` holds the same fields and updates them in
  place. Each of its methods is proved to produce the state that its
  specification function gives.
- **Recognition client** (`deepgram_client.dfy`, module `DeepgramClient`).
  - The fixed listen address.
  - The socket as a record with a ready state CONNECTING, OPEN, CLOSING or CLOSED. `close()` and `send()` act on it.
  - The `onmessage` dispatch, `OnMessage`. It takes an already parsed message and yields nothing, one error notification, or one transcript notification.
  - The `onopen`, `onclose` and `onerror` handlers are wired in `Background` (`SocketOpened`, `SocketClosed`, `SocketError`). They run against the background page's state.
- **Content script** (`content.dfy`, module `Content`). Its state is:
  - the overlay's text and visibility;
  - the duration of the one pending hide timer;
  - the speech synthesiser (its last utterance, its queue, and the calls made on it);
  - the interim transcript buffer.

  `Show`, `Hide`, `Say` and `Receive` specify `showSubtitle`, the timer
  firing, `speak` and the message listener. The class `ContentScript` holds the
  fields and updates them in place.
- `scenarios.dfy` proves whole-session scenarios through both sides.

Host events are explicit operations: a socket opening, the service starting
the closing handshake, a message arriving, an error, a close, the hide timer
firing, the synthesiser finishing an utterance. Their preconditions are what
the host guarantees. A WebSocket opens only while connecting, the service
starts closing only an open socket, messages are dispatched only while the
socket is open, and nothing fires on a socket after its close event. The host
fires only a pending timer and ends only queued speech.

Behaviour of the code worth knowing:
- The close/error callback's guard tests only whether the tab has an entry. It does not check that the entry is still the socket whose event fired. After a replace, the old socket's late close event therefore deletes the *new* session. The new socket is then left connecting with no entry, and the tab gets a "closed unexpectedly" error. `ReplacedCloseDropsSuccessor` proves this. After an explicit stop the guard does suppress the callback (`StoppedCloseSuppressed`).
- The code therefore does not keep a tab to one live connection. The orphan of a replace is never closed. After a later start, the orphan and the new socket are both live and both deliver to the tab (`OrphanOutlivesRestart`). When the orphan finally closes, it deletes the newer session's entry (`OrphanCloseKillsNext`).
- The close and error handlers call the callback only when one was supplied. The router always supplies one.
- A socket starts out CONNECTING, so `start-deepgram-session` replies success before the socket can carry audio (`ChunkBeforeOpenRejected`).
- When the service closes a connection (code 1011 when it received no audio), the socket is CLOSING before its close event arrives. The tab's entry still names it during that window, and chunks are rejected (`PeerClosingRejectsChunk`).
- `speak` cancels only when an utterance exists and the synthesiser is speaking. Under the script's invariant that is the same as "whenever something is speaking" (`FinalReplacesSpeech`).

## Model

| member | source | states |
|---|---|---|
| `DeepgramClient.OnMessage` | deepgram-client.js:19-78 | Metadata and UtteranceEnd yield nothing. An error notification comes exactly for an Error message, with text "Deepgram API Error: " + message (absent prints "undefined"). A transcript notification comes exactly when the kind is none of those three and the first alternative's transcript is present and non-empty; it carries that text, the connection's language and `is_final`. Every notification goes to the connection's tab. |
| `DeepgramClient.Connect` | deepgram-client.js:8-13 | A new socket is bound to the given tab, language and callback, uses the fixed address, is CONNECTING and has sent nothing. |
| `DeepgramClient.FirstTranscript` | deepgram-client.js:50 | The result is the first alternative's transcript exactly when the channel, its alternatives list and a first element are present, and nothing otherwise. |
| `DeepgramClient.Close` | background.js:17 | `close()` leaves a socket neither connecting nor open. A connecting or open socket becomes CLOSING. A closing or closed one is unchanged. Nothing but the ready state changes. |
| `DeepgramClient.Send` | background.js:73 | `send()` on an open socket appends the frame once to its sent frames. Nothing else about the socket changes. |
| `Background.Retire` | background.js:13-19 | The tab's socket is exactly what `close()` makes of it: CLOSING, with its close event still to come and its other fields kept. The entry is deleted. Other tabs' entries, other sockets and the outbox are unchanged. |
| `Background.Start` | background.js:8-61 | The socket the tab's entry names, if any, is exactly what `close()` makes of it: CLOSING, with its close event still to come. A socket that has lost its entry is not closed. Success iff initialisation did not throw. On success the table holds exactly the new, connecting socket (the newest id) for the tab. On a throw the reply carries the error and the tab has no entry. Other tabs' entries and other sockets are unchanged. |
| `Background.Chunk` | background.js:62-86 | Success iff the tab has an entry whose socket is OPEN. Then the frame is appended once to that socket's sent frames and nothing else changes. Otherwise the state is unchanged (nothing buffered) and the error is "Deepgram socket not ready or connection closed.". |
| `Background.Stop` | background.js:87-102 | Success iff the tab had an entry. Then its socket is exactly what `close()` makes of it (CLOSING, close event still to come) and the entry is deleted. Otherwise the state is unchanged and the error is "No active interpretation for this tab.". |
| `Background.HandleCommand` | background.js:7-104 | `start-deepgram-session` runs `Start`, `audio-chunk` runs `Chunk` and `stop-deepgram-session` runs `Stop`, each replying with that operation's reply. A reply comes iff the command is one of the three. Any other message changes nothing. Only the entry and the socket of `msg.tabId` can change. |
| `Background.ReasonText` | background.js:39 | The close reason when it is present and non-empty, otherwise "No audio". |
| `Background.CloseOrError` | background.js:27-44 | If the tab has an entry, it is deleted and exactly one error message goes to that tab, containing the reason, or "No audio" when the reason is empty or absent. Otherwise nothing changes. |
| `Background.SocketOpened` | deepgram-client.js:15-17 | The open event changes only that socket's state, to OPEN. |
| `Background.SocketPeerClosing` | background.js:72 | A host event, observed by the OPEN check: the service starting the closing handshake changes only that socket's state, from OPEN to CLOSING. The entry and the outbox are unchanged until the close event. |
| `Background.SocketMessage` | deepgram-client.js:19-78 | A message never touches the table or the sockets. The outbox gains exactly `OnMessage`'s notification for the socket's own tab and language, or nothing, whether or not the socket still has an entry. |
| `Background.SocketError` | deepgram-client.js:94-99 | An error event runs the callback once with no reason, when a callback was supplied. |
| `Background.SocketClosed` | deepgram-client.js:80-92 | A close event, whatever its code, marks the socket CLOSED and runs the callback once with the event's reason. |
| `Background.StepKeepsConsistent` | background.js:5-104 | Every command and every socket event, the service starting the closing handshake included, preserves the router invariant. |
| `Background.RunKeepsConsistent` | background.js:5-104 | For any run of events, service-initiated closes included, each entry is keyed by its own tab and names the newest socket of that tab, whose close event has not fired (it may be CLOSING). No socket sends audio before it opens. |
| `Background.EverySocketListens` | deepgram-client.js:8-13 | Every connection ever opened uses the address with encoding=linear16, sample_rate=16000, channels=1, interim_results=true, endpointing=false. |
| `Background.ReplacedCloseDropsSuccessor` | background.js:13-49 | Two starts for one tab, then the first socket's close event: the second session's entry is deleted, its socket is left connecting, and the tab gets one error message. |
| `Background.OrphanOutlivesRestart` | background.js:13-49 | After the orphan of `ReplacedCloseDropsSuccessor` appears, a third start leaves it and the new socket both live for the tab. The new socket is the entry. Once open, the orphan still delivers its notifications to the tab. |
| `Background.OrphanCloseKillsNext` | background.js:13-49 | When that orphan later closes, its close event deletes the third session's entry while that session's socket is still live, and the tab gets one "closed unexpectedly" message. |
| `Background.StoppedCloseSuppressed` | background.js:89-94 | After stop, the stopped socket's close event changes neither the table nor the outbox. |
| `Background.ErrorThenCloseNotifiesOnce` | background.js:31-43 | An error event followed by a close event on the tab's socket deletes the entry and sends exactly one message, "…: No audio". |
| `Background.SecondStopFails` | background.js:87-101 | Two stops in a row: the second replies failure with "No active interpretation for this tab.". |
| `Background.PeerClosingRejectsChunk` | background.js:62-74 | After the service starts closing an open session's socket, the entry is still there and a chunk is rejected with the state unchanged. |
| `Background.ChunkBeforeOpenRejected` | background.js:46-74 | Start replies success while the new socket is still connecting. A frame sent before the open event is rejected and not sent. |
| `Background.Router.constructor` | background.js:5 | The table starts empty, with no sockets and no messages. |
| `Background.Router.StartSession` | background.js:8-61 | The new fields and reply are those of `Start`, and the invariant holds. |
| `Background.Router.AudioChunk` | background.js:62-86 | The new fields and reply are those of `Chunk`, and the invariant holds. |
| `Background.Router.StopSession` | background.js:87-102 | The new fields and reply are those of `Stop`, and the invariant holds. |
| `Background.Router.OnRuntimeMessage` | background.js:7-104 | The new fields and optional reply are those of `HandleCommand`. |
| `Background.Router.CloseOrErrorCallback` | background.js:27-44 | The new fields are those of `CloseOrError`. |
| `Background.Router.HandleOpen` | deepgram-client.js:15-17 | The new fields are those of `SocketOpened`. |
| `Background.Router.HandlePeerClosing` | deepgram-client.js:80-92 | The new fields are those of `SocketPeerClosing`. |
| `Background.Router.HandleMessage` | deepgram-client.js:19-78 | The new fields are those of `SocketMessage`. |
| `Background.Router.HandleError` | deepgram-client.js:94-99 | The new fields are those of `SocketError`. |
| `Background.Router.HandleClose` | deepgram-client.js:80-92 | The new fields are those of `SocketClosed`. |
| `Content.Show` | content.js:34-41 | Sets the text, makes the overlay visible and leaves exactly one hide pending, for `duration` (2000 when left out). Speech and the interim buffer are unchanged. |
| `Content.Hide` | content.js:38-40 | When the pending hide fires, only the visibility changes, to hidden. The text is kept and no hide remains pending. |
| `Content.CancelSpeech` | content.js:55-57 | `synth.cancel()` empties the queue and is recorded. The overlay is unchanged. |
| `Content.Say` | content.js:47-78 | No-op without a synthesiser. Otherwise it cancels only when an utterance exists and something is speaking, then queues exactly one new utterance with the given language ("en" when absent). |
| `Content.Receive` | content.js:83-112 | A final transcript is shown for 5000 ms and spoken with its language, and the interim buffer is reset. An interim transcript is buffered and shown for 2000 ms, with no speech. An error shows "Error: " + message for 5000 ms, calls `cancel()` exactly when a synthesiser exists and is speaking, starts no speech and keeps the buffer. Any other type changes nothing. |
| `Content.LastShowWins` | content.js:34-41 | Of two `showSubtitle` calls the last one wins, for text and timer alike. |
| `Content.FinalReplacesSpeech` | content.js:88-91 | Under the invariant, a final transcript leaves exactly its own utterance queued. |
| `Content.StepKeepsConsistent` | content.js:34-112 | Every message, timer firing and speech ending preserves the script's invariant. |
| `Content.RunKeepsConsistent` | content.js:34-112 | For any run, the overlay is visible exactly while a hide is pending and at most one utterance is queued. |
| `Content.ContentScript.constructor` | content.js:44-45 | The script starts with an empty hidden overlay, no utterance and an empty buffer. |
| `Content.ContentScript.ShowSubtitle` | content.js:34-41 | The new fields are those of `Show`. |
| `Content.ContentScript.HideTimeoutFires` | content.js:38-40 | The new fields are those of `Hide`. |
| `Content.ContentScript.Speak` | content.js:47-78 | The new fields are those of `Say`. |
| `Content.SpeechDone` | content.js:70-75 | When the synthesiser finishes the utterance at the head of its queue, that utterance leaves the queue. Nothing else changes. |
| `Content.ContentScript.SpeechEnds` | content.js:70-75 | The synthesiser drops the utterance it finished. |
| `Content.ContentScript.OnMessage` | content.js:83-112 | The new fields are those of `Receive`. |
| `Scenarios.HolaScenario` | content.js:88-99 | Tab 7, language "es": a forwarded frame, then interim "hola" (shown 2000 ms, no speech), then final "hola" (shown 5000 ms, spoken as ("hola", "es")). |
| `Scenarios.NoAudioCloseScenario` | background.js:31-43 | Tab 3's open socket is closed by the service with code 1011. A chunk sent during the closing handshake is rejected. The close event removes the entry, and tab 3 gets the close reason. |
| `Scenarios.ApiErrorKeepsSession` | deepgram-client.js:36-48 | An Error message notifies the tab and leaves the session registered. A later transcript is still delivered. |

## Left out

- popup.js: the controller UI, tab capture, script injection, the Float32 to Int16 sample conversion and its readiness gate. These are host APIs, UI glue and floating point.
- Base64 encoding and decoding come from utils.js, which is not part of this model. A command's `chunk` is the already decoded frame, an opaque byte sequence.
- `JSON.parse`, the socket transport, its handshake and the auth token are foreign calls. Inbound messages are the already parsed `Inbound` record. A message's `code` is kept but only logged.
- Delivery by `chrome.tabs.sendMessage` and `sendResponse` is not modelled. Sent messages are appended to an outbox and replies are returned values. The `lastError` and `.catch` paths and all console logging, including the code-1011 branch (which only logs), are left out as well.
- An exception from `initDeepgramConnection` is an input to `Start` (`thrown`), since its causes are inside the host.
- Sockets are records in a registry indexed by creation order, not heap objects. Socket identity is the index, and no aliasing beyond that is modelled.
- An error event does not change a socket's ready state. A real browser marks the socket closed and then fires close, and `ErrorThenCloseNotifiesOnce` covers that sequence.
- Real timer scheduling and speech audio are not modelled. A pending hide is its duration, speech is a queue, and both move only through explicit host events. The utterances' `onend` and `onerror` handlers only log.
- Overlay styling and element creation (content.js:4-32) are left out. The script is modelled from a fresh page, with an empty hidden overlay.
- JavaScript truthiness and dynamic typing are not modelled. `is_final` is its truthiness as a boolean, message fields are strings or absent, and tab ids are integers (JavaScript object keys are strings).
