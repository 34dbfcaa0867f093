# Chat store model

A Dafny model of the state behind the HTTP handlers of a small multi-user chat
application (`handler/handlers.go`). The handlers share three pieces of
state: the message log (`messages`), the user map from user ID to user record
(`users`) and the session map from session token to user ID (`sessions`).
Logging in stores one user and one session together. Logging out forgets one
session. Sending checks the session, ignores empty content and otherwise
appends one message built from the session's user. Polling renders the whole
log as HTML chat bubbles, marking each one "self" or "other" by comparing the
message's author ID with the viewer's ID. IDs and tokens are 16 random bytes in
lower-case hexadecimal.

Files:

- `wrappers.dfy`: `Option`.
- `models.dfy`: the `User` and `Message` records, with an opaque `Timestamp`.
- `ids.dfy`: hex encoding, its inverse, and `GenerateId`.
- `render.dfy`: the bubble markup, the rendering of a log as a recursive
  function, and the accumulating loop of `GetMessages` as a method proved
  against it.
- `chat_spec.dfy`: the store as a value (`State`) with its invariant, one
  function per handler (new store and reply), and lemmas about sequences of
  requests and about login/logout/send/poll scenarios.
- `store.dfy`: class `Handler.Store`, whose fields are the three globals. Its
  methods update them in place as the handlers do, and each one is proved
  equal to its `ChatSpec` counterpart.

The invariant (`ChatSpec.Inv`) says that every session points to a stored
user, that every user is stored under its own ID, and that every ID and token
has the 32-hex-digit shape. Every request keeps it. Users are never removed,
and the log only grows (`ChatSpec.RunPreserves`).

Inputs from outside the program are parameters. The random bytes behind each
ID are a `RandomBytes` block of 16 bytes. `time.Now()` is a `Timestamp`. The
`session` cookie is an `Option<string>`: `None` when the request has none.

Three behaviours of the code that are easy to misread, and that the model keeps:

- A request that still carries a logged-out token does not get the login form
  directly. `ChatPage` clears the cookie and redirects
  (`ChatSpec.LogoutThenPage`). Only the next request, which arrives without a
  cookie, gets the login form.
- `saveMessageToFile` does not reload the file before appending. It appends to
  the in-memory log, releases the lock, takes it again and writes the file. It
  is `GetMessages` that reloads the file.
- An unknown token on `/messages` is not redirected. `GetMessages` only checks
  that a cookie is present, and then renders with the viewer ID `""`
  (`ChatSpec.ViewerId`). `SendMessage` does redirect an unknown token, before
  it looks at the content.

## Model

| member | source | states |
|---|---|---|
| `Ids.HexEncode` | handler/handlers.go:26 | the encoding has two characters per byte, all of them lower-case hex digits |
| `Ids.DecodeEncode` | handler/handlers.go:26 | decoding an encoding gives back the bytes, so the encoding loses nothing |
| `Ids.EncodeDecode` | handler/handlers.go:26 | every even-length lower-case hex string is the encoding of the bytes it decodes to |
| `Ids.GenerateId` | handler/handlers.go:23-27 | an ID is 32 lower-case hex digits and decodes back to the 16 random bytes it came from |
| `Ids.GenerateIdInjective` | handler/handlers.go:23-27 | two IDs are equal exactly when their random blocks are equal |
| `Render.ClassOf` | handler/handlers.go:437-440 | the class is "self" exactly when the message's user ID equals the viewer's ID, and "other" exactly when it does not |
| `Render.SelfMarkerIff` | handler/handlers.go:437-441 | a bubble opens with the "self" class tag exactly when the viewer wrote the message |
| `Render.RenderLogIsFragments` | handler/handlers.go:435-442 | the rendering is the concatenation of one bubble per message, in log order, and nothing else |
| `Render.RenderLogAppend` | handler/handlers.go:435-442 | rendering `a + b` is rendering `a` followed by rendering `b` |
| `Render.RenderMessages` | handler/handlers.go:435-442 | the accumulating loop yields exactly the rendering of the whole log |
| `ChatSpec.Initial` | handler/handlers.go:15-18 | the start-up store holds the given log, no users and no sessions, and meets the invariant |
| `ChatSpec.Lookup` | handler/handlers.go:364 | a token is found exactly when it is a session key; under the invariant its user exists and the token has the ID shape |
| `ChatSpec.ViewerId` | handler/handlers.go:430 | a known token resolves to its user ID; under the invariant the result is "" exactly when the token is unknown |
| `ChatSpec.UserOf` | handler/handlers.go:365 | a stored user is returned as stored; a missing one reads as the zero user with empty ID and name |
| `ChatSpec.Login` | handler/handlers.go:274-301 | an empty name changes nothing and sets no cookie; otherwise exactly the user (new ID, given name, login time) and the session (new token to that ID) are added, nothing else changes, each map grows by one when its new key is fresh, the invariant is kept and the token is returned as the cookie |
| `ChatSpec.Logout` | handler/handlers.go:303-318 | the reply always clears the cookie and redirects; only the cookie's token leaves the session map; the other sessions, all users and the log are unchanged; no cookie or an unknown token changes nothing; the invariant is kept |
| `ChatSpec.Poll` | handler/handlers.go:418-445 | no cookie is redirected; otherwise the reply is one bubble per logged message for the viewer the cookie resolves to |
| `ChatSpec.Send` | handler/handlers.go:357-392 | redirect exactly when there is no cookie or no such session, and then nothing changes; empty content changes nothing; otherwise the log grows by exactly one message at the end (new ID, the session's user ID and name, the content, the send time) with the prefix untouched; users and sessions never change; a non-redirect reply is the poll of the new store; the invariant is kept |
| `ChatSpec.ChatPage` | handler/handlers.go:93-166 | the login form exactly when there is no cookie or it is empty; the chat page exactly when the token is a session, and under the invariant it shows that user's name; otherwise clear the cookie and redirect |
| `ChatSpec.StepPreserves` | handler/handlers.go:289-292 | one request of any kind keeps the invariant, removes no user and only extends the log |
| `ChatSpec.RunPreserves` | handler/handlers.go:289-307 | over any sequence of requests the invariant holds, no user is removed and the log is append-only |
| `ChatSpec.LogoutIdempotent` | handler/handlers.go:304-309 | logging out twice has the same effect as logging out once |
| `ChatSpec.LoginThenPage` | handler/handlers.go:287-298 | the cookie a successful login sets opens the chat page showing the login name |
| `ChatSpec.LogoutThenPage` | handler/handlers.go:303-309 | after logout the old token gets the clear-cookie redirect, not the chat page |
| `ChatSpec.SendThenPoll` | handler/handlers.go:377-391 | after a send, each later poll is the earlier poll followed by the author's bubble with the content, marked "self" exactly for polls by the author's own user |
| `ChatSpec.TwoLogins` | handler/handlers.go:280-292 | two logins with distinct random blocks yield two distinct users, each reachable through its own token |
| `ChatSpec.FirstMessage` | handler/handlers.go:377-391 | the first message sent into an empty log: the sender's reply is the single "self" bubble, and another user's poll is the same bubble marked "other" |
| `ChatSpec.AliceAndBob` | handler/handlers.go:357-445 | Alice and Bob log in and Alice sends "hi": the reply to Alice is her bubble with class "self", name "Alice" and content "hi", and Bob's poll is the same bubble with class "other" |
| `Handler.Store.constructor` | handler/handlers.go:15-18 | a new store holds the loaded log, no users and no sessions, and is valid |
| `Handler.Store.LookupSession` | handler/handlers.go:363-366 | the lookup reports whether the token is a session, and its user ID or "" |
| `Handler.Store.LookupUser` | handler/handlers.go:365 | the user under an ID, or the zero user |
| `Handler.Store.ChatPage` | handler/handlers.go:154-166 | the page chosen is `ChatSpec.ChatPage` of the current store |
| `Handler.Store.Login` | handler/handlers.go:274-301 | the new store and the cookie are those of `ChatSpec.Login`, and the invariant is kept |
| `Handler.Store.Logout` | handler/handlers.go:303-318 | only the session map changes; the new store and the clear-cookie reply are those of `ChatSpec.Logout`, and the invariant is kept |
| `Handler.Store.SaveMessage` | handler/handlers.go:77-80 | the log becomes the old log plus the message; nothing else changes |
| `Handler.Store.GetMessages` | handler/handlers.go:418-445 | the reply is `ChatSpec.Poll` of the current store; nothing changes |
| `Handler.Store.SendMessage` | handler/handlers.go:357-392 | only the log changes: new log and reply are those of `ChatSpec.Send`, and the invariant is kept |

## Left out

- The mutex `mu`, including its release and re-acquisition inside `saveMessageToFile`. Every handler is modelled as one atomic step.
- Echo plumbing: the echo context, form parsing, cookie attributes and expiry, status codes and redirect targets. Replies are values: `Redirect`, `Html(fragment)`, `LoginForm`, `ClearCookieAndRedirect` and `ChatShell(name)`. The last stands for the static chat page, of which only the user name it shows is modelled.
- File and JSON persistence: `LoadMessages`, `loadMessagesFromFile`, `SaveMessages` and the write half of `saveMessageToFile`. They use the operating system and the JSON library. The model takes the file to hold exactly the in-memory log, so the reload in `GetMessages` is the identity. It also leaves out the reload's effect when the file is missing (an empty log) or unreadable, and the "Error saving message" and "Error loading messages" replies. The identity-reload assumption fails after a failed write. The append happens before the write, so the in-memory log holds the message while the file does not. The next `GetMessages` replaces the log with the file's contents, so the program drops the message, but the model keeps it.
- Foreign calls: `crypto/rand` becomes the `RandomBytes` parameters, and its ignored error is not modelled. `time.Now` becomes the `Timestamp` parameters.
- `ChatSpec.Login`: it does not assume the oracle's IDs are fresh. A colliding ID overwrites an entry, as a Go map assignment does. So the "one more user" and "one more session" counts are stated only for fresh keys.
- `Ids.HexDecode` is the inverse used for the round trips. It accepts only lower-case digits and is not a model of Go's `hex.DecodeString`, which the handlers never call.
- The commented-out `SendMessage` and `GetMessages`, the route registration in `main.go` and `api/index.go`, and the static HTML text of the two pages.
