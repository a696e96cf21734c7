# Session transcript table of the adoption-advisor chat backend

The backend (`index.js`) keeps a module-level `sessions` object that maps a
session id to its transcript: an append-only list of `{ role, content }`
turns. Three HTTP handlers change it in place:

- `POST /api/new-session` stores a fresh id with two seed turns: the system
  persona, then the assistant welcome.
- `POST /api/chat/:sessionId` rejects a falsy `message` with 400 and creates
  an empty transcript for an unknown id. It then appends the user turn and
  sends the whole transcript to the completion service. On success it
  appends the assistant reply and answers 200. On failure it answers 500 and
  keeps the user turn.
- `POST /api/upload-image/:sessionId` rejects a missing file with 400. It
  sends a fixed two-turn request (a French prompt, then a JPEG data URI of
  the image) that ignores the history. On success it appends one assistant
  turn to an existing session. An unknown id makes that append throw inside
  the `try`, so the caller gets 500 and no session is created.

The model has four modules:

- `Transcripts`: the data (roles, turns, the table, responses, the
  completion outcome) and the fixed texts.
- `Handlers`: each handler as a function from the old table to the new table,
  the response and the message list sent upstream, plus `Run` over a sequence
  of requests.
- `Server`: class `SessionStore`, whose `sessions` map the three methods
  update step by step as the handlers do. Each method is proved equal to its
  `Handlers` function. Client methods replay example scenarios.
- `Properties`: lemmas about whole runs of requests.

The completion call is an `Outcome` the caller supplies: `Ok(reply)` or
`Fail`. The generated uuid is a caller-supplied fresh id. The uploaded file
is a flag plus its base64 text.

Unlike chat, upload does not create a missing session: `sessions[sessionId]`
is undefined at index.js:122, so `.push` throws inside the `try` and the
response is 500 with the table unchanged.

## Model

| member | source | states |
|---|---|---|
| Transcripts.DataUri | index.js:109 | the image turn's content is the JPEG data-URI prefix followed by exactly the base64 text |
| Transcripts.ImagePayload | index.js:109 | inverse of DataUri: it finds a payload exactly when the prefix is there, and DataUri of that payload gives back the input |
| Transcripts.ImageRequest | index.js:102-111 | the upload request is exactly two user turns: the fixed prompt, then a data URI whose payload is the given base64 |
| Handlers.NewSession | index.js:31-46 | the id maps to exactly (system, persona) then (assistant, welcome); the keys gain only that id; every other entry is unchanged; for an unused id every old transcript is kept; the response is 200 carrying the id; no upstream call |
| Handlers.Chat | index.js:49-85 | falsy message iff no upstream call; then 400 "Message is required" and the table unchanged. Otherwise it sends the old transcript (empty for an unknown id) plus the user turn. The stored transcript is what was sent, plus the assistant reply only on success. No other entry changes and the table only grows append-only. The response is 200 with botMessage = reply, or 500 with the error text |
| Handlers.UploadImage | index.js:88-128 | no file iff no upstream call; then 400 "Image is required" and the table unchanged. Otherwise it sends exactly ImageRequest(base64) whatever the history. On success for an existing id it appends one (assistant, reply) turn and answers 200. For an unknown id or a failed call it answers 500 with the table unchanged. It never adds a key |
| Handlers.Handle | index.js:31-128 | every handler answers 200 with a success field, or 400/500 with an error field only; none removes a session; with a fresh new-session id each keeps every stored turn |
| Handlers.Run | index.js:22 | handling requests one after another never removes a session |
| Server.SessionStore.constructor | index.js:22 | the table starts empty |
| Server.SessionStore.NewSession | index.js:31-46 | given an id not in the table, the new table and the response are those of Handlers.NewSession, and every old transcript is kept |
| Server.SessionStore.Chat | index.js:49-85 | the in-place updates leave the table, response and sent message list that Handlers.Chat gives; every old transcript is kept as a prefix |
| Server.SessionStore.UploadImage | index.js:88-128 | the in-place updates leave the table, response and sent request that Handlers.UploadImage gives; the set of session ids is unchanged |
| Server.NewSessionThenBonjour | index.js:31-79 | new session, then chat "Bonjour" answered with reply: 4 turns (persona, welcome, (user, "Bonjour"), (assistant, reply)), the seed plus (user, "Bonjour") sent upstream, and a 200 with that reply |
| Server.ChatToUnknownSession | index.js:57-79 | chat "Bonjour" to the never-created id "xyz": its transcript is exactly [(user, "Bonjour"), (assistant, reply)], with no seed, and only (user, "Bonjour") is sent upstream |
| Server.UploadToUnknownSession | index.js:121-127 | an upload to the never-created id "xyz" whose upstream call succeeds still answers 500 and leaves no session, after sending the fixed two-turn image request |
| Properties.Conversation | index.js:59-77 | the turns that N successful chats append: 2N turns, user turn 2j carrying message j and assistant turn 2j+1 carrying reply j |
| Properties.RunAppendOnly | index.js:34-122 | over any run whose new-session ids are fresh, no session disappears and every stored transcript stays a prefix of its later value |
| Properties.ChatSucceeds | index.js:57-77 | one successful chat with a non-empty message replaces only that id's entry, by its old transcript (empty if unknown) plus (user, message) and (assistant, reply) |
| Properties.SuccessfulChats | index.js:57-79 | successful chats with non-empty messages on one id append exactly their conversation to that id's transcript (empty if unknown) |
| Properties.ChatsTouchOnlyTheirSession | index.js:57-77 | those chats add at most their own id to the table, always add it if there was at least one, and leave every other session's transcript as it was |
| Properties.NewSessionThenChats | index.js:34-77 | new session then N successful chats: 2 + 2N turns, the seed first, then user and assistant turns alternating with the given messages and replies |
| Properties.UploadsKeepSessions | index.js:121-122 | any run of image uploads leaves the set of session ids exactly as it was |
| Properties.RejectedRequestsChangeNothing | index.js:53-93 | any run of chats with a falsy message and uploads without a file leaves the whole table unchanged |
| Properties.FailedThenRetried | index.js:59-84 | a failed chat then a successful retry of the same message leaves two user turns in a row before the reply: the failure is not rolled back |

## Left out

- Express routing, JSON body parsing (and its 10 MB limit), static file serving and server start-up (index.js:12-20, 130-133): framework plumbing.
- Multer's multipart handling and `encodeImage`'s file read and base64 encoding (index.js:16, 25-28, 95): file I/O. The upload is a `hasFile` flag for `req.file` and the base64 text is an opaque input string. Multer's own error paths are not modelled.
- The HTTP call to the completion service, its bearer header and the reading of `choices[0].message.content` (index.js:62-76, 98-121): a network call. It is an `Outcome` supplied by the caller. A response without a first choice throws, which is `Fail`. A choice whose content is null or missing would be stored and returned as such; the model has no such reply.
- The unused OpenAI client and the undefined `PROCESS.ENV` (index.js:10, 70, 115): a bootstrap fault. As written, line 10 stops the module at load. The model assumes the process starts and the upstream call is made.
- `console.error` logging (index.js:82, 125).
- Interleaving of concurrent requests on one session: each handler is one atomic step. A real chat and another request on the same id can interleave around the upstream wait.
- `uuidv4` (index.js:32): the id is a parameter. `Server.SessionStore.NewSession` requires it to be unused; `Handlers.NewSession` models the plain assignment, which would overwrite a reused id.
- Handlers.Chat: `message` is an optional string (also in `Handlers.Truthy` and `Server.SessionStore.Chat`); other JSON values (numbers, booleans, objects) and their truthiness are not modelled.
- Session ids that name properties inherited by plain JavaScript objects (such as `constructor` or `__proto__`) are not modelled: the table is a plain map. In the source such an id is truthy before any session exists, so chat's push at index.js:59 would throw outside the `try`.
