# Pocket reminder bot: the authorization state machine

A model of the update handler of the Pocket reminder Telegram bot. The bot keeps
one authorization state per Telegram user: no entry (the handshake has not
started), `WaitingForCallback(code)` (a Pocket request code was obtained and the
user was sent the authorize link), or `Authorized(token)` (Pocket confirmed the
code and returned an access token). Every text message from a user drives that
user's handshake one step: a new user gets a request code and the link, a
waiting user's code is confirmed with Pocket, an authorized user is told
"Authorized!". The decided change is committed by a single insert into the map.

Files:

- `telegram.dfy` (module `Telegram`): updates, messages and replies.
- `pocket.dfy` (module `Pocket`): the request and response records of the two
  OAuth calls, and `Service`, Pocket's answer to each request (a send error, or
  a response with its status and its body decoded or not).
- `authorization.dfy` (module `Authorization`): the state type, the authorize
  link, the pure transition `Transition` (the `match` on the sender's state), and
  the forward-only relation `Progress` on user maps.
- `update_loop.dfy` (module `UpdateLoop`): `Step`, one pass of the handler over
  a value `BotState` (user map, replies sent, Pocket calls made); `Replay`, the
  handler over a whole stream; and the class `Bot`, whose `HandleUpdate` and
  `Run` update the map and append to the outbox in place and are proved equal to
  `Step` and `Replay`.
- `wrappers.dfy` (module `Wrappers`): `Option`.

The network is a parameter: each element of the update stream comes with the
`Service` that answers the calls made while it is handled, so the same request
may be answered differently at different times. A failed call sends no
message to the user and leaves the user's state as it was, and an authorized user is only told
"Authorized!".

## Model

| member | source | states |
|---|---|---|
| `Authorization.Transition` | src/main.rs:57-119 | Only the sender's entry is ever changed, and only one step forward. An authorized user gets exactly the reply "Authorized!", with no call and no change. A waiting user's authorize call carries exactly the stored code; the user becomes `Authorized(t)` if and only if the call arrives with status 200 and the body decodes as `t`; no reply either way. A new user's request-token call carries the consumer key and the redirect URI; the user becomes `WaitingForCallback(c)` if and only if the answer arrives and decodes to code `c`, whatever its status, and then exactly the link for `c` and "Waiting for callback!" are replied, in that order; otherwise nothing is replied. |
| `Authorization.AuthorizeLink` | src/main.rs:106-109 | The link is the authorize page, then the request code, then `&redirect_uri=` and the bot's redirect URI, with nothing else in between. |
| `Authorization.LinkRoundTrip` | src/main.rs:104-110 | The authorize link sent to a new user carries exactly the request code it was built from. |
| `Authorization.LinkDeterminesCode` | src/main.rs:104-110 | Conversely, a string of the authorize-link shape is the link of the code read from it. |
| `Authorization.ProgressTransitive` | src/main.rs:57-124 | Moving forward twice is moving forward: no entry lost, no entry moved backwards. |
| `UpdateLoop.Step` | src/main.rs:55-128 | An update that is not a message, or a message that is not text, changes nothing and sends nothing. For a text message, the sender's entry becomes the state `Transition` decides, or stays as it was when it decides no change; exactly `Transition`'s replies are appended to the outbox and its calls to the call log, in order. Every user other than the sender keeps its entry or its absence. Entries are never removed and never move backwards; an `Authorized` entry never changes. |
| `UpdateLoop.Replay` | src/main.rs:54-129 | Handling a stream of updates in order only appends to the outbox and the call log, never withdrawing or reordering what was sent, and never removes a user entry. |
| `UpdateLoop.ReplayProgress` | src/main.rs:54-129 | Over any stream of updates, the key set never shrinks and states only move forward; `Authorized` is terminal. |
| `UpdateLoop.ReplayOnlySenders` | src/main.rs:121-124 | Over any stream, a user who sent no text message keeps exactly its entry or its absence. |
| `UpdateLoop.HandshakeScenario` | src/main.rs:54-129 | A full handshake for one user: the first message yields code "abc", the link and the waiting notice; the second confirms "abc" and stores the token silently; the third is answered "Authorized!". |
| `UpdateLoop.Bot.constructor` | src/main.rs:52 | The bot starts with an empty user map and nothing sent. |
| `UpdateLoop.Bot.HandleUpdate` | src/main.rs:55-128 | Handling an update in place leaves exactly the state `Step` describes: replies appended in the order they are sent, then the change inserted under the sender's id. |
| `UpdateLoop.Bot.Run` | src/main.rs:54-129 | Handling the stream in place leaves exactly the state `Replay` describes, and the user map has only moved forward. |

## Left out

- The HTTP calls to Pocket (src/main.rs:70-76, 87-101) are network I/O: each becomes an answer of `Pocket.Service`; headers and URLs of the calls are not modelled.
- JSON encoding and decoding with serde (src/main.rs:17-38, 68, 78, 93, 102) is foreign library code: decoding is the `body` option of a response, encoding is the request record itself. The `unwrap` of encoding cannot fail on records of strings.
- The Telegram API, its update stream and the asynchronous `api.spawn` sends (src/main.rs:50, 54, 59, 104-111) are transport: a send is an append to the outbox, in the order it is spawned. Whether Telegram delivers spawned messages in that order, and send failures, are not modelled.
- An error from the update stream, which ends `for_each` and makes `core.run(...).unwrap()` panic (src/main.rs:131), is not modelled: the stream is a finite sequence of updates.
- The tokio event loop (src/main.rs:46, 131) and reading the bot token and consumer key from the environment (src/main.rs:48-49) are runtime configuration: the consumer key is a constructor parameter.
- The value `HashMap::insert` returns (src/main.rs:122) is discarded by the code and not modelled.
