# Human-in-the-loop correlation layer, in Dafny

This project models the part of the human-in-the-loop server that lets an
agent ask a human a question in a chat platform and get the reply back:

- the **Slack backend** (`HumanInSlack`): it opens a Socket Mode stream
  whose background reader acknowledges each envelope, routes a thread
  reply of the configured human to the `ask` calls subscribed to that
  thread, and ends for good on an event that lacks a key it looks up; and
  it runs `ask` as a fixed sequence: start the socket once, get or create
  the thread, subscribe, post a threaded reply unless this is the first
  ask, then wait;
- the **Discord backend** (`HumanInDiscord`): a gateway handler whose first
  `ready` event sets the context, and an `ask` that refuses to run before
  that, creates one public thread on first use, sends every question into
  it with a mention and waits for the next message there;
- the **timeout policy** both backends share (a timed-out wait succeeds with
  a fixed deferral text), and the **tool adapter** that exposes `ask_human`
  and `notify_human` to the agent.

Every network call is an input: the model receives the outcome of the
bootstrap request, the WebSocket connect, each `chat.postMessage`, the
thread creation, the send and the wait as parameters (`Slack.AskEnv`,
`Slack.SocketEnv`, `Discord.DiscordEnv`). What the backends do to the
outside world is recorded, in order, in a `trace` of actions (posts,
subscriptions, waits, acknowledgements, broadcasts, thread creations,
sends), so that ordering claims such as "subscribe before the threaded
reply" can be stated and proved.

Layout, one module per file:

- `interaction.dfy` (`Interaction`): `Option`, `Result`, the errors `ask`
  can end with, the 100-character title, the mention
  prefix, the deferral text, the decimal rendering of a Discord user id.
- `timeout_policy.dfy` (`TimeoutPolicy`): the wait deadline of each backend
  and how the end of the wait becomes the answer.
- `slack_events.dfy` (`SlackEvents`): decoded frames with optional fields
  and the reader's pure per-frame decision (`Classify`).
- `slack.dfy` (`Slack`): the backend's state as a value, one function per
  operation from old state to new, the invariant `Valid`, lemmas, and the
  class `HumanInSlack` whose methods perform the same operations in place
  and are proved equal to those functions.
- `discord.dfy` (`Discord`): the same for `Handler` and `HumanInDiscord`.
- `tools.dfy` (`Tools`): the two tools' result mapping and the tool calls
  over either backend.

Behaviour of the code that is easy to misread, and that the model keeps:

- The first Slack ask posts only the mention and the truncated question;
  no full-text message follows it, and it subscribes after that creating
  post. Subscription before posting holds for later asks only.
- Without a timeout the Slack backend still waits 300 seconds; only the
  Discord backend waits without bound.
- A failed socket start, thread creation or Discord thread creation leaves
  its cell empty, so the next ask tries again; nothing is poisoned.
- The threaded reply post of a later Slack ask fails the ask only when the
  request cannot be sent; an error status in its response is ignored.
- The binary opens a Slack connection itself before the first ask without
  marking the socket as started, so the first ask opens a second one. The
  model keeps one entry per opened connection (`readers`) rather than
  claiming one.
- The reader looks up the keys of `payload.event` in a JSON map, and
  looking up a key the map lacks panics. The reader task then ends after
  having acknowledged that envelope, and since the socket stays marked as
  started no ask opens a new one. A top-level message of the human (no
  `thread_ts`) is enough; see "## Findings".

## Model

| member | source | states |
|---|---|---|
| `Interaction.Title` | src/slack.rs:128 | the thread title is a prefix of the question of length min(100, length of the question); a short question is its own title |
| `Interaction.Mention` | src/slack.rs:129 | a message body is the `<@user> ` mention followed by the text, which can be read back unchanged after the mention |
| `Interaction.MentionInjective` | src/slack.rs:172 | two mention-prefixed messages to the same user are equal only when their texts are |
| `Interaction.Decimal` | src/discord.rs:91 | a numeric user id is rendered as a non-empty string of decimal digits that denotes the id (its digit value is the id), with no leading zero unless the id is zero, one digit exactly for ids below ten |
| `Interaction.DecimalInjective` | src/discord.rs:91 | two different user ids never get the same mention text |
| `TimeoutPolicy.SlackDeadline` | src/slack.rs:157-159 | the Slack wait is always bounded: m*60 seconds for a timeout of m minutes, 300 seconds without one |
| `TimeoutPolicy.DiscordDeadline` | src/discord.rs:96-98 | the Discord wait is unbounded exactly when no timeout is configured, m*60 seconds otherwise |
| `TimeoutPolicy.DefaultTimeoutEqualsFallback` | src/slack.rs:157-159 | the binary's default of five minutes gives Slack the same deadline as its 300-second fallback |
| `TimeoutPolicy.DeadlinesAgreeWhenConfigured` | src/discord.rs:96-110 | the two backends wait equally long if and only if a timeout is configured |
| `TimeoutPolicy.SlackWaitResult` | src/slack.rs:190-197 | the Slack ask succeeds exactly on a reply (its text) or a timeout (the deferral text); a closed channel and a lagged subscriber are the two errors |
| `TimeoutPolicy.DiscordWaitResult` | src/discord.rs:96-111 | a reply is returned verbatim; an empty wait gives the deferral text when timed and the "failed to await" error when untimed, and that is the only error |
| `TimeoutPolicy.BackendsAgreeOnTimeoutAndReply` | src/discord.rs:99-101 | both backends map a timed-out wait to the same successful deferral and return a reply's text unchanged |
| `TimeoutPolicy.UnboundedDiscordWaitNeverDefers` | src/discord.rs:104-110 | an untimed Discord wait succeeds only with the reply it received |
| `SlackEvents.Classify` | src/slack.rs:74-99 | an ack with the envelope id is decided exactly for parsed text frames carrying a string envelope id, whatever their event; a route exists exactly for `events_api` message events of the configured channel and user that carry string `text` and `thread_ts`, and targets that `thread_ts` with that text; the reader halts only on an inspected `events_api` event, never with a route, always when `type` is missing, never when every key is present, and for a message of the human in the channel with string text exactly when `thread_ts` is missing |
| `SlackEvents.ForeignFrameNotRouted` | src/slack.rs:88-90 | an event from another channel or another author is never routed |
| `Slack.InitialValid` | src/slack.rs:39-42 | a new instance satisfies the invariant (no root, empty registry, no posts) |
| `Slack.WebSocketUrl` | src/slack.rs:55-62 | bootstrap yields the URL if and only if `ok` is true and `url` is present; otherwise the rejection with the reported error (or "unknown"), the missing-URL error, or the transport error |
| `Slack.StartResult` | src/slack.rs:46-65 | starting the socket succeeds if and only if bootstrap yields a URL and the connection to it opens; otherwise it fails with the bootstrap error or the connect's transport error |
| `Slack.StartStep` | src/slack.rs:46-110 | a successful start adds one connection with a running reader and changes nothing else; a failed start changes nothing |
| `Slack.EnsureSocket` | src/slack.rs:118-121 | a socket already started is not started again; otherwise the start is attempted, and only its success marks the socket as started |
| `Slack.AddSubscriber` | src/slack.rs:161-168 | subscribing creates the entry only when absent, keeps every existing subscriber, adds one with an empty inbox and leaves other entries alone |
| `Slack.Deliver` | src/slack.rs:95-98 | a delivery appends the text to every current subscriber's inbox of that root, touches no other entry, and drops the text when the root has no entry |
| `Slack.LateSubscriberMissesEarlierText` | src/slack.rs:161-168 | a subscriber registered after a delivery does not see it |
| `Slack.EarlySubscriberReceivesText` | src/slack.rs:96-97 | a subscriber registered before a delivery receives it first, and so do the earlier subscribers |
| `Slack.ReadStep` | src/slack.rs:74-99 | one frame read by connection `conn`: nothing at all when that reader has ended; otherwise the ask state, the registry keys and the other connections' readers are kept, a frame without a route leaves the registry alone, and the invariant is kept |
| `Slack.ReadAll` | src/slack.rs:74-106 | the reader loop over any frames keeps the root, the socket flag, the registry keys and the number of connections |
| `Slack.ReadStepEffect` | src/slack.rs:75-99 | per frame of a running reader, the ack is the first action added, nothing is acked without an envelope id, the registry changes exactly by the routed delivery, and the reader ends exactly when the inspection panics |
| `Slack.ReadStepAcks` | src/slack.rs:78-83 | a frame adds exactly its own acknowledgement to a running reader's trace, also when it then ends the reader |
| `Slack.Consumed` | src/slack.rs:74-94 | the frames a reader takes in are a prefix of those that arrive: all of them, or up to and including the first that ends it |
| `Slack.ReadAllAcknowledges` | src/slack.rs:74-94 | a running reader acknowledges exactly the envelope ids of the parsed frames it takes in, in arrival order, and nothing after the first frame that ends it; it has ended exactly when such a frame arrived |
| `Slack.ReadAfterStopDoesNothing` | src/slack.rs:74 | a connection whose reader has ended acknowledges and routes nothing more |
| `Slack.ReadAllIntendedUntilStop` | src/slack.rs:74-106 | until a frame ends it, the reader as written does exactly what the intended reader does |
| `Slack.IntendedReadStep` | src/slack.rs:75-99 | the intended per-frame step keeps the ask state, the readers and the registry keys |
| `Slack.IntendedReadAll` | src/slack.rs:74-106 | the intended loop keeps the ask state, the readers and the registry keys over any frames |
| `Slack.IntendedReadStepAcks` | src/slack.rs:78-83 | an intended step adds exactly the frame's own acknowledgement |
| `Slack.IntendedReadAllAcknowledges` | src/slack.rs:74-83 | the intended reader acknowledges the envelope ids of all parsed frames, over any sequence, in arrival order |
| `Slack.TopLevelMessageStopsReader` | src/slack.rs:88-94 | a top-level message of the human is acknowledged and ends the reader, so the next envelope goes unacknowledged, while the intended reader acknowledges both |
| `Slack.ReadAllIgnoresForeignFrames` | src/slack.rs:86-99 | frames that are not thread replies of the configured user and channel leave the registry unchanged, on any connection |
| `Slack.ReadAllValid` | src/slack.rs:73-107 | the reader loop preserves the invariant |
| `Slack.ThreadRoot` | src/slack.rs:136-153 | the creating post yields a root if and only if its status is a success and its body carries `ts`; otherwise the transport error of the request or of reading the body, the post-failed error, or the missing-timestamp error |
| `Slack.EnsureThread` | src/slack.rs:124-154 | a set root is returned as it is; otherwise the creating post is recorded, and the root is set exactly when the post yields one, with that post's result |
| `Slack.AskStep` | src/slack.rs:116-198 | ask only appends to the trace, keeps a set root, opens no connection once the socket is started, and answers only once the socket is started and the root exists |
| `Slack.AskStartsSocketUntilSuccess` | src/slack.rs:118-121 | ask starts the socket, adding one running reader, until one start succeeds and never again; a failed start fails the ask and leaves the state exactly as it was, so the next ask retries |
| `Slack.FirstAskCreatesThread` | src/slack.rs:124-168 | the first ask posts one top-level message, mention plus first 100 characters and no `thread_ts`; on success it stores the returned `ts`, subscribes and waits with no second post; on failure the root stays unset, nothing is subscribed and the error is returned |
| `Slack.LaterAskRepliesInThread` | src/slack.rs:161-187 | a later ask keeps the root, subscribes to it before posting mention plus the full question with `thread_ts` equal to the root, waits only if that post was sent and fails with the transport error otherwise |
| `Slack.AskValid` | src/slack.rs:116-198 | ask preserves the invariant: a set root never changes, the registry holds only the root, and every threaded post goes to the root |
| `Slack.ReplyReachesWaitingAsk` | src/slack.rs:86-99 | after an ask subscribed, a thread reply of the configured human read by a running reader lands as the first text of that ask's subscription, and a foreign frame reaches nobody |
| `Slack.SecondAskReusesRoot` | src/slack.rs:124-187 | two asks on a fresh instance: the second reuses the first root and posts a threaded reply after subscribing; one connection was opened |
| `Slack.BinaryOpensTwoConnections` | src/slack.rs:118-121 | a direct start before the first ask plus that ask's own start open two connections |
| `Slack.StoppedReadersStayStopped` | src/slack.rs:118-121 | once every reader has ended, an ask opens no connection and no later frame is acknowledged or delivered |
| `Slack.HumanInSlack.constructor` | src/slack.rs:25-44 | a new instance has the given configuration and the initial state |
| `Slack.HumanInSlack.StartSocketConnection` | src/slack.rs:46-110 | the in-place start equals `StartStep`: one more running reader on success, no change on failure |
| `Slack.HumanInSlack.HandleFrame` | src/slack.rs:75-105 | one reader iteration in place equals `ReadStep` (ack, then routing or the end of the reader) |
| `Slack.HumanInSlack.RunReader` | src/slack.rs:74-106 | the reader loop in place, which leaves off once its reader has ended, equals `ReadAll` over the frames received |
| `Slack.HumanInSlack.Ask` | src/slack.rs:116-198 | `ask` in place equals `AskStep`, new state and answer |
| `Discord.ReadyStep` | src/discord.rs:38-40 | after a `ready` event the context is set: to the event's when it was unset, unchanged otherwise |
| `Discord.ReadyAll` | src/discord.rs:38-40 | after any `ready` events the context is unset only when it was unset and no event came |
| `Discord.FirstReadyWins` | src/discord.rs:38-40 | only the first `ready` event sets the context; later ones never replace it |
| `Discord.EnsureThread` | src/discord.rs:75-90 | a set thread is returned as it is; otherwise the creation is requested, and the thread is set exactly when it succeeds, with its error otherwise |
| `Discord.AskStep` | src/discord.rs:69-112 | ask only appends to the trace, never touches the context, keeps a set thread, and answers only when ready and the thread exists |
| `Discord.NotReadyAskDoesNothing` | src/discord.rs:70-74 | without a context, ask fails as not ready and creates and sends nothing |
| `Discord.FirstAskCreatesThread` | src/discord.rs:75-94 | the first ready ask requests a public, one-day-archive thread under the channel titled with the first 100 characters, then sends mention plus the full question and waits; a failed creation returns its error with nothing sent and the thread unset |
| `Discord.LaterAskReusesThread` | src/discord.rs:75-94 | a later ask creates nothing, keeps the thread, sends mention plus the full question into it and waits only if the send succeeded |
| `Discord.AskAll` | src/discord.rs:69-112 | any sequence of asks only appends to the trace and keeps the context; before `ready` it changes nothing |
| `Discord.ThreadCreatedAtMostOnce` | src/discord.rs:75-90 | once the thread exists, any number of further asks keep it and never request another |
| `Discord.Handler.constructor` | src/discord.rs:28-34 | a new handler has no context |
| `Discord.Handler.Ready` | src/discord.rs:38-40 | a `ready` event sets the context only when it is unset |
| `Discord.HumanInDiscord.constructor` | src/discord.rs:52-60 | a new instance has the given configuration, a fresh handler without context, and no thread |
| `Discord.HumanInDiscord.Ask` | src/discord.rs:69-112 | `ask` in place equals `AskStep`, new state and answer |
| `Discord.ReadyThroughGateway` | src/discord.rs:23-26 | the gateway's handler is the backend's own, so a `ready` it receives makes the backend ready |
| `Tools.AskHumanResult` | src/tools.rs:27-32 | `ask_human` returns the answer text unchanged, and a tool error carrying the ask error, with no text, when ask fails |
| `Tools.NotifyHumanResult` | src/tools.rs:50-55 | `notify_human` returns exactly "Status reported successfully" on any successful ask and propagates an ask error as a tool error |
| `Tools.NotifyDiscardsReply` | src/tools.rs:55 | `notify_human` gives the same result whatever the human replied, while `ask_human` distinguishes any two replies |
| `Tools.ToolsAgreeOnErrors` | src/tools.rs:31 | both tools fail exactly when ask fails, with that error |
| `Tools.Ask` | src/tools.rs:9-11 | ask on the configured backend behaves as that backend's `AskStep` |
| `Tools.CallAskHuman` | src/tools.rs:27-33 | `ask_human` passes the question to ask unchanged and maps its answer as `AskHumanResult` |
| `Tools.CallNotifyHuman` | src/tools.rs:50-56 | `notify_human` runs the same blocking ask with the message as question and maps its answer as `NotifyHumanResult` |

## Left out

- Concurrency: the `OnceCell`/`OnceLock` race resolution, the `RwLock`, the spawned reader task and broadcast-channel internals. The model is one sequential interleaving of asks and reader iterations; the window where `is_initial_message` is read before the thread cell is initialised is not modelled.
- Broadcast capacity: the lag after 16 undelivered texts is not simulated; `Lagged` and `Closed` are inputs of the wait. The `ChannelClosed` arm is kept as an unconstrained input although the source cannot reach it while the instance lives: a sender is inserted into the registry and never removed (src/slack.rs:163), and the registry is held by the instance and by every reader task. Receivers are never dropped in the model, so an inbox stays registered after its ask returns; a send to a dropped receiver has no observable effect in the source either.
- The wait outcome is an input rather than derived from the subscriber's inbox; `Slack.ReplyReachesWaitingAsk` states the routing side of that link separately.
- Transport I/O: reqwest, tokio-tungstenite and serenity calls, the tokens, headers and URLs they use, and the WebSocket sender (acknowledgement send errors are ignored by the source and simply recorded as sent here).
- JSON: parsing and serialisation are replaced by decoded records with optional fields; the acknowledgement is the envelope id, not JSON text.
- Real time: durations are a number of seconds in a `Deadline`; nothing waits.
- Characters: `chars().take(100)` is taken on `seq<char>`, with no Unicode scalar-value detail; `m * 60` is on unbounded integers, so u64 overflow is not modelled.
- The binary (argument parsing, MCP server construction, process wiring) is not part of this model; its two relevant facts are the five-minute default (`TimeoutPolicy.DefaultTimeoutEqualsFallback`) and the direct socket start (`Slack.BinaryOpensTwoConnections`).
- The tools' static metadata hints and the `tool_box!` declaration.
- Discord's `start` (gateway client construction) and the author of the awaited reply, which the source does not filter.
- What follows the end of a Slack reader: the dropped WebSocket halves close that connection, and Slack's redelivery of unacknowledged envelopes to other connections is not modelled. Frames are given per connection; how Slack spreads envelopes over two open connections is not modelled either. The panic is taken to end only the spawned task, as it does under the default unwinding panic strategy.
- Error texts: errors are told apart by their variant (and the transport detail); the wording of the source's error messages is not modelled.

## Findings

| source | as written | input that shows it | evidently intended | confidence | as-written member | corrected member |
|---|---|---|---|---|---|---|
| src/slack.rs:88-94 | the keys of `payload.event` are looked up by indexing a JSON map, which panics on a missing key and ends the reader task after the envelope was acknowledged; the socket stays marked as started, so no ask opens a new connection; once every reader has ended (`Slack.StoppedReadersStayStopped`), every later ask can only reach its deadline, while with the binary's two connections the other reader keeps routing until a frame ends it too | an `events_api` envelope `E1` whose event is `{"type":"message","channel":C,"user":U,"text":"hi"}` (a top-level message of the human), followed by any envelope `E2`: only `E1` is acknowledged | a missing key read as JSON null, so that such events are skipped and the reader goes on acknowledging and routing | not executed; rests on the documented panic of map indexing | `Slack.ReadStep`, `Slack.TopLevelMessageStopsReader` | `Slack.IntendedReadStep`, `Slack.IntendedReadAllAcknowledges` |

The class `HumanInSlack` reads frames through `Slack.ReadStep`, since it
describes the code; `Slack.ReadStep` takes every frame that does not end the
reader through `Slack.IntendedReadStep`, and `Slack.ReadAllIntendedUntilStop`
shows the two readers agree until such a frame arrives.
