# Chat server presence and message-delivery core, in Dafny

This project models the server side of a direct-messaging service. It covers:

- the socket gate that admits a connection only with a valid token for a known user;
- the `onlineUsers` registry, mapping a user id to the socket of that user's latest `join`;
- the `online_users` presence broadcast after every `join` and `disconnect`;
- the `send_message` router;
- the `typing`, `stop_typing` and `mark_as_read` relay;
- the two HTTP routes that list users and return a conversation's history;
- the Message schema and its collection.

Each socket handler is one atomic step of the class `Socket.ChatServer`. The class has three parts of state:

- `online` and `keys`: the registry, and the order in which a JavaScript `Map` lists its keys;
- `messages`: the message collection, a `MessageModel.MessageCollection`;
- `outbox`: every event pushed so far, each one a target (one socket or everyone) with an event and its payload.

The pure parts are functions. Each has a contract that states its result, and most also have lemmas:

- the gate decision;
- the send handler's checks;
- the schema's record constructor;
- the bulk "mark as seen" update;
- the history query, which filters and then sorts.

Text is a sequence of UTF-16 code units (`JsText.CodeUnit`). This makes `length` and the 2000 limit count what JavaScript counts, and makes `trim` strip exactly ECMAScript white space.

Identifiers are ObjectId hex text. The store casts a 24-digit hex id without regard to letter case and prints it in lower case (`Identity.CastObjectId`). Plain text comparisons in the socket handlers do not.

Files:

- `outcomes.dfy`: Option and Result.
- `jstext.dfy`: code units and `trim`.
- `identity.dfy`: ObjectId text and the cast.
- `message.dfy`: the schema, the collection and `updateMany`.
- `sorting.dfy`: sorting by a key.
- `presence.dfy`: the registry as values.
- `gate.dfy`: the connection gate.
- `socket.dfy`: the handlers.
- `routes.dfy`: the two routes.

All text, including the server's own messages, is `JsText.Text`. The token verifier, the user lookup, the clock and store failures are all parameters. Store failures are given as fault values: `StoreFault`, `HistoryFault`, and the `writeFails`/`fails` flags.

In these places the code behaves as follows:

- The send handler also drops a request with a missing or empty `receiverId`.
- A missing payload object makes the field read throw inside the handler's `try`. The sender then gets the `error` event (`Screening.Unreadable`).
- A failure of the read-back after a successful create (`populate`, server/socket.js:56-59) leaves the record stored. The sender still gets the `error` event (`StoreFault.PopulateFails`).
- An exception in the gate's user lookup is reported as "Invalid token", not as an unknown user.

## Model

| member | source | states |
|---|---|---|
| JsText.Trim | server/socket.js:45 | `trim` returns the slice of the input after its leading blanks. That slice is followed only by blanks and neither starts nor ends with a blank. It is empty exactly when the input is all white space, and it is never longer than the input |
| JsText.TrimIdempotent | server/models/Message.js:14-18 | Trimming twice is trimming once, so the schema's `trim` setter leaves the handler's trimmed body unchanged |
| Identity.CastObjectId | server/models/Message.js:4-13 | An id casts to an ObjectId exactly when it is 24 hex digits. The result is the lower-case printed form, digit by digit |
| Identity.CanonicalCastsToItself | server/socket.js:27 | A printed ObjectId (`_id.toString()`) casts to itself |
| Identity.CastIgnoresCase | server/routes/users.js:29 | Two hex ids that differ only in letter case cast to the same ObjectId |
| MessageModel.RecordErrors | server/models/Message.js:3-28 | A document's error set holds each failing path exactly when that path fails: a missing or uncastable id, a missing or blank body, a trimmed body over 2000 code units |
| MessageModel.NewRecord | server/models/Message.js:3-28 | Creating a record succeeds exactly when both ids are present and cast, and the trimmed body is non-empty and at most 2000 code units. On failure the error names exactly the failing paths. A created record is schema-valid, holds the cast ids and the trimmed body, has `seen` false, and takes the supplied id and clock value |
| MessageModel.MarkSeenAt | server/socket.js:105-108 | The bulk update sets `seen` on exactly the records from the given sender to the given receiver. Every other field, and every other record, is unchanged |
| MessageModel.MarkSeenLeavesNoneUnseen | server/routes/users.js:45-48 | After the update, no message of the targeted direction is unseen |
| MessageModel.MarkSeenOnlyRaises | server/socket.js:105-108 | The update only moves `seen` from false to true and changes nothing else |
| MessageModel.MarkSeenIdempotent | server/socket.js:105-108 | Repeating the update changes nothing |
| MessageModel.MarkSeenKeepsWellFormed | server/models/Message.js:3-28 | The update keeps every record schema-valid, and keeps ids as positions |
| MessageModel.MessageCollection.Create | server/socket.js:50-54 | `Message.create` either reports the schema errors or the write failure and leaves the collection unchanged, or appends exactly the record `NewRecord` builds |
| MessageModel.MessageCollection.UpdateManySeen | server/socket.js:105-108 | A filter id that does not cast, or a store failure, changes nothing. Otherwise the collection becomes `MarkSeen` of the old one, with the ids cast. `seen` only rises |
| Sorting.SortBy | server/routes/users.js:40 | Sorting returns a permutation of its input |
| Sorting.SortBySorted | server/routes/users.js:40 | For a total preorder, the sorted sequence is in ascending order |
| Presence.KeysAfterSet | server/socket.js:32-35 | After `set`, the listed keys are the old keys plus the user, each at most once. An existing key keeps its place |
| Presence.KeysAfterDelete | server/socket.js:121-122 | After `delete`, the listed keys are the old keys without the user, each at most once. Nothing changes when the user was absent |
| Presence.KeysAfterDeleteKeepsOrder | server/socket.js:121-122 | Deleting a user removes exactly that user's position from the key list. The other users keep their order in the broadcast |
| Presence.ReplayOnline | server/socket.js:32-122 | After any sequence of joins and disconnects, a user is online exactly when the last change concerning them was a join, and the entry holds that join's socket: the latest connection wins |
| Gate.Reason | server/socket.js:13-22 | Every refusal message starts with "Authentication error: " |
| Gate.ReasonIdentifiesError | server/socket.js:13-22 | The three refusal messages are distinct, so each names its cause |
| Gate.Admit | server/socket.js:10-24 | Refusal with "No token" happens exactly when the token is missing or empty. "Invalid token" happens exactly when verification or the lookup throws. "User not found" happens exactly when the verified id names no user. An admitted connection carries the user found for the verified id |
| Socket.ScreenAsWritten | server/socket.js:42-47 | The handler's checks as written. With no payload, the error path. Otherwise a silent drop exactly when the receiver is missing or empty, the message is missing or blank, the receiver id text equals the caller's id, or the untrimmed message is over 2000 code units |
| Socket.Screen | server/socket.js:42-47 | The same checks, except that the self check compares the cast receiver id with the caller's id. An accepted request has a non-empty receiver, a non-blank message of at most 2000 code units, and a receiver that does not cast to the caller |
| Socket.ScreenedSendRecord | server/socket.js:45-54 | For an accepted send, the only schema error possible is an uncastable receiver. The stored record is from the caller, never to the caller, holds the trimmed message, and is unseen |
| Socket.SelfSendSlipsPastRawCheck | server/socket.js:46 | Counterexample: a receiver id that spells the caller's id in capitals passes the written check, and the store records it with sender equal to receiver. The corrected check drops it |
| Socket.Deliveries | server/socket.js:70-77 | A stored message is pushed to the receiver's socket when the receiver is online, then always back to the sender's socket. Every push carries the same stored record |
| Socket.ChatServer.SocketFor | server/socket.js:71-72 | A socket is found exactly when the user has a registry entry with a non-empty socket id, and it is that entry's socket |
| Socket.ChatServer.constructor | server/socket.js:6 | The registry starts empty, with nothing pushed |
| Socket.ChatServer.Connect | server/socket.js:10-24 | The gate admits a socket exactly when `Admit` succeeds, and the connection then carries the user `Admit` found. A refused socket is reported with `Admit`'s error and is never added to the admitted connections. Every handler takes only admitted connections, and every registered user holds the socket of one of them. The registry and the pushed events do not change |
| Socket.ChatServer.Join | server/socket.js:31-37 | The registry maps the user to this socket, replacing any earlier entry. Other entries are unchanged, the key order follows `Map.set`, and one `online_users` event to everyone lists exactly the online users, each once |
| Socket.ChatServer.Disconnect | server/socket.js:120-124 | The user's entry is removed, whichever socket it holds, and nothing happens when it is absent. Then one `online_users` event to everyone lists exactly the remaining users. The socket leaves the admitted connections |
| Socket.ChatServer.SendMessage | server/socket.js:40-82 | The checks are the ones the code makes (`ScreenAsWritten`), so the self check compares id text. A dropped request changes nothing. A request with no payload sends only an `error` to the sender. An accepted one is handled by `StoreAndDeliver`. The registry never changes, `seen` only rises, and every `receive_message` ever pushed matches a stored record |
| Socket.ChatServer.StoreAndDeliver | server/socket.js:49-81 | A schema error or a failed create stores nothing and sends only an `error` to the sender. Otherwise exactly one record is appended. Then either only an `error` is sent (the read-back failed), or that record is pushed to the online receiver and echoed to the sender |
| Socket.ChatServer.Typing | server/socket.js:85-93 | A `typing` event with the caller's id and username goes to the receiver exactly when the receiver is online. No other state changes |
| Socket.ChatServer.StopTyping | server/socket.js:95-100 | A `stop_typing` event with the caller's id goes to the receiver exactly when the receiver is online. No other state changes |
| Socket.ChatServer.MarkAsRead | server/socket.js:103-118 | With a castable sender id and a working store, the sender's messages to the caller become seen and nothing else changes. Then `messages_read` by the caller goes to the sender exactly when the sender is online. Otherwise nothing changes and nothing is pushed |
| UserRoutes.ByUsernameIsTotalPreorder | server/routes/users.js:13 | Comparing usernames code unit by code unit is a total preorder, so sorting by it is well defined |
| UserRoutes.OtherUsers | server/routes/users.js:11 | The query keeps exactly the users whose id is not the caller's, with their multiplicities |
| UserRoutes.ListUsers | server/routes/users.js:9-20 | A store failure gives status 500. Otherwise the answer holds every user except the caller, each as often as stored, in ascending username order |
| UserRoutes.Conversation | server/routes/users.js:34-39 | The query keeps exactly the messages between the caller and the other user, in either direction, with their multiplicities |
| UserRoutes.History | server/routes/users.js:34-42 | The history is a permutation of the conversation in ascending timestamp order |
| UserRoutes.GetMessages | server/routes/users.js:23-55 | An id that is not 24 hex digits gives status 400 and changes nothing. A store failure gives status 500. Otherwise the answer is the history of the records as they were before the call, and then exactly the other user's messages to the caller become seen |
| UserRoutes.UnreadMessageReachesHistory | server/routes/users.js:34-48 | An unseen message to the caller appears in the history as unseen, and the call then marks it seen |

## Left out

- client/app.js: the browser interface. It renders, debounces typing and formats dates, and holds no server state.
- server/server.js: Express and socket.io set-up, CORS, rate limits and `listen`. It is wiring with no logic of its own.
- server/routes/auth.js: registration and login. These are password hashing, token signing and store lookups. Only the gate's decision is modelled, with token verification and user lookup as parameters.
- server/models/User.js and the route authentication middleware are not part of this model. A user is an id and a username, and the routes take the caller's id as given.
- Concurrency: handlers and routes interleave at every store call. Each one is modelled as a single atomic step.
- Transport: every push is appended to `outbox`. Delivery to a socket, and the fate of an orphaned older socket, are not modelled.
- The read-back (`populate`) replaces payload ids by user objects. The model pushes the stored record with ids, and keeps only the read-back's possible failure.
- ObjectId generation: a record's id is its position in the collection. The timestamp default is a supplied clock value.
- The collection index (server/models/Message.js:31) is a performance aid with no behaviour.
- Logging (`console.*`).
- Payload fields of other types than text (numbers, objects) are not modelled. Such a message would throw at `trim` and take the `error` path.
- A missing payload object for `typing`, `stop_typing` or `mark_as_read` is not modelled. The destructuring then throws outside any `try`.
- A `mark_as_read` with no `senderId` is not modelled. What the store filter does with an undefined id depends on driver settings.
- Older ObjectId libraries also accept 12-character text as an id. The cast here accepts only 24 hex digits.
- Sorting: the store does not order records with equal keys. The contracts therefore promise only ascending order and the same elements. The store compares strings by UTF-8 bytes. This differs from code-unit order only between surrogate pairs and code units above 0xE000.
- Gate.Reason: its contract states only the common prefix. The three full texts are in its body.

## Findings

| source | as written | input that shows it | evidently intended | confidence | as-written member | corrected member |
|---|---|---|---|---|---|---|
| server/socket.js:46 | `receiverId === userId` compares the receiver id text with the caller's lower-case printed id. `Message.create` then casts the receiver id without regard to case | caller `aaaaaaaaaaaaaaaaaaaaaaaa` sends `hi` to `AAAAAAAAAAAAAAAAAAAAAAAA`: the check passes and a record with sender equal to receiver is stored | a user cannot send a message to themself | not executed; medium, since it rests on the ObjectId cast accepting upper-case hex, as the route's own id check does | Socket.SelfSendSlipsPastRawCheck | Socket.ScreenedSendRecord |
