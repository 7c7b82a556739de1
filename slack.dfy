/** The Slack backend: a Socket Mode event stream read by a background
    reader, a registry that routes thread replies to waiting `ask` calls,
    and the `ask` sequence itself (start the socket, get or create the
    thread, subscribe, post, wait).

    The state is a value, `SlackState`; each operation is a function from
    the old state (and the outcomes of its network calls) to the new one,
    and the class `HumanInSlack` performs the same operations in place. */
module Slack {
  import opened Interaction
  import opened TimeoutPolicy
  import opened SlackEvents

  /** A `chat.postMessage` request; `threadTs` is set for a threaded reply. */
  datatype Post = Post(channel: string, text: string, threadTs: Option<string>)

  /** The outward effects of the backend, in the order they happen. */
  datatype Action =
    | PostMessage(post: Post)
    | Subscribe(threadTs: string)
    | Wait(threadTs: string, subscriber: nat, deadline: Deadline)
    | Ack(envelopeId: string)
    | Broadcast(threadTs: string, text: string)

  /** The texts a subscriber has been sent, oldest first. */
  type Inbox = seq<string>

  /** Thread root to the inboxes of its current subscribers. */
  type Registry = map<string, seq<Inbox>>

  datatype SlackConfig = SlackConfig(channelId: string, userId: string, timeoutMinutes: Option<nat>)

  /** `readers` has one entry per socket connection opened so far, whoever
      opened it, telling whether that connection's reader still runs;
      `websocketStarted` is set only by `ask`. */
  datatype SlackState = SlackState(
    threadTs: Option<string>,
    websocketStarted: bool,
    readers: seq<bool>,
    registry: Registry,
    trace: seq<Action>)

  const Initial: SlackState := SlackState(None, false, [], map[], [])

  /** The actions a step added to the trace. */
  function NewActions(before: SlackState, after: SlackState): seq<Action>
    requires |before.trace| <= |after.trace|
  {
    after.trace[|before.trace|..]
  }

  /** Once the thread root is known, every registry entry is that root and
      every threaded post was addressed to it; a started socket was opened
      at least once. */
  predicate Valid(s: SlackState) {
    && (s.threadTs.Some? ==> s.threadTs.value in s.registry)
    && (forall k :: k in s.registry ==> s.threadTs == Some(k))
    && (s.websocketStarted ==> 1 <= |s.readers|)
    && (forall i :: 0 <= i < |s.trace| && s.trace[i].PostMessage? && s.trace[i].post.threadTs.Some? ==>
          s.trace[i].post.threadTs == s.threadTs)
  }

  lemma InitialValid()
    ensures Valid(Initial)
  {
  }

  // ---------------------------------------------------------------------
  // Opening the socket connection

  /** The response of `apps.connections.open`: either the request or the
      decoding of its body failed, or a body arrived whose `ok` field is
      `Some(b)` when it is a JSON boolean and whose `error` and `url` fields
      are `Some(s)` when they are JSON strings. */
  datatype OpenResponse =
    | OpenFailed(detail: string)
    | Opened(ok: Option<bool>, error: Option<string>, url: Option<string>)

  datatype Connect = Connected | ConnectFailed(detail: string)

  datatype SocketEnv = SocketEnv(open: OpenResponse, connect: Connect)

  /** The stream URL of a bootstrap response. It is refused unless `ok` is
      true, and then it must be present. */
  function WebSocketUrl(resp: OpenResponse): (r: Result<string>)
    ensures r.Ok? <==> resp.Opened? && resp.ok == Some(true) && resp.url.Some?
    ensures r.Ok? ==> r.value == resp.url.value
    ensures resp.OpenFailed? ==> r == Err(Transport(resp.detail))
    ensures resp.Opened? && resp.ok != Some(true) ==> r == Err(BootstrapRejected(resp.error.GetOr("unknown")))
    ensures resp.Opened? && resp.ok == Some(true) && resp.url.None? ==> r == Err(NoWebSocketUrl)
  {
    match resp
    case OpenFailed(detail) => Err(Transport(detail))
    case Opened(ok, error, url) =>
      if ok != Some(true) then Err(BootstrapRejected(error.GetOr("unknown")))
      else if url.None? then Err(NoWebSocketUrl)
      else Ok(url.value)
  }

  /** Whether `start_socket_connection` succeeds, and with which error it
      fails. */
  function StartResult(env: SocketEnv): (o: Outcome)
    ensures o.Pass? <==> WebSocketUrl(env.open).Ok? && env.connect.Connected?
    ensures WebSocketUrl(env.open).Err? ==> o == Fail(WebSocketUrl(env.open).error)
    ensures WebSocketUrl(env.open).Ok? && env.connect.ConnectFailed? ==> o == Fail(Transport(env.connect.detail))
  {
    match WebSocketUrl(env.open)
    case Err(e) => Fail(e)
    case Ok(_) =>
      match env.connect
      case Connected => Pass
      case ConnectFailed(detail) => Fail(Transport(detail))
  }

  /** `start_socket_connection`: a success opens one more connection, whose
      reader runs; a failure changes nothing. */
  function StartStep(s: SlackState, env: SocketEnv): (r: (SlackState, Outcome))
    ensures r.1 == StartResult(env)
    ensures r.1.Pass? ==> r.0 == s.(readers := s.readers + [true])
    ensures r.1.Fail? ==> r.0 == s
  {
    var o := StartResult(env);
    (if o.Pass? then s.(readers := s.readers + [true]) else s, o)
  }

  /** The guard at the head of `ask`: start the socket unless an earlier ask
      already did. A failed start leaves the flag unset, so the next ask
      tries again. */
  function EnsureSocket(s: SlackState, env: SocketEnv): (r: (SlackState, Outcome))
    ensures s.websocketStarted ==> r == (s, Pass)
    ensures !s.websocketStarted ==> r.1 == StartResult(env)
    ensures !s.websocketStarted && r.1.Pass? ==> r.0 == s.(websocketStarted := true, readers := s.readers + [true])
    ensures !s.websocketStarted && r.1.Fail? ==> r.0 == s
  {
    if s.websocketStarted then (s, Pass)
    else
      var (s1, o) := StartStep(s, env);
      if o.Pass? then (s1.(websocketStarted := true), Pass) else (s1, o)
  }

  // ---------------------------------------------------------------------
  // The registry

  /** The subscribers registered for `threadTs`, none when it has no entry. */
  function Subscribers(registry: Registry, threadTs: string): seq<Inbox> {
    if threadTs in registry then registry[threadTs] else []
  }

  /** Register one more subscriber for `threadTs`, creating the entry if it
      is absent and reusing it otherwise. The new subscriber starts with an
      empty inbox; it is returned by its position. */
  function AddSubscriber(registry: Registry, threadTs: string): (r: (Registry, nat))
    ensures r.0.Keys == registry.Keys + {threadTs}
    ensures r.0[threadTs] == Subscribers(registry, threadTs) + [[]]
    ensures r.1 == |Subscribers(registry, threadTs)| && r.0[threadTs][r.1] == []
    ensures forall k :: k in registry && k != threadTs ==> r.0[k] == registry[k]
  {
    var subs := Subscribers(registry, threadTs);
    (registry[threadTs := subs + [[]]], |subs|)
  }

  /** Publish `text` to every current subscriber of `threadTs`; without an
      entry the text is dropped. */
  function Deliver(registry: Registry, threadTs: string, text: string): (r: Registry)
    ensures r.Keys == registry.Keys
    ensures threadTs in registry ==>
              |r[threadTs]| == |registry[threadTs]| &&
              forall i :: 0 <= i < |registry[threadTs]| ==> r[threadTs][i] == registry[threadTs][i] + [text]
    ensures forall k :: k in registry && k != threadTs ==> r[k] == registry[k]
    ensures threadTs !in registry ==> r == registry
  {
    if threadTs in registry then
      var subs := registry[threadTs];
      registry[threadTs := seq(|subs|, i requires 0 <= i < |subs| => subs[i] + [text])]
    else
      registry
  }

  /** A subscriber that registers after a delivery does not see it. */
  lemma LateSubscriberMissesEarlierText(registry: Registry, threadTs: string, text: string)
    ensures var (r, k) := AddSubscriber(Deliver(registry, threadTs, text), threadTs); r[threadTs][k] == []
  {
  }

  /** A subscriber registered before a delivery receives it as its first
      text, and the subscribers already there receive it too. */
  lemma EarlySubscriberReceivesText(registry: Registry, threadTs: string, text: string)
    ensures var (r, k) := AddSubscriber(registry, threadTs);
            var d := Deliver(r, threadTs, text);
            && d[threadTs][k] == [text]
            && forall i :: 0 <= i < k ==> d[threadTs][i] == registry[threadTs][i] + [text]
  {
  }

  // ---------------------------------------------------------------------
  // The reader

  /** Whether connection `conn` has been opened and its reader still runs. */
  predicate Running(s: SlackState, conn: nat) {
    conn < |s.readers| && s.readers[conn]
  }

  /** The state after the acknowledgement a decision calls for. */
  function Acked(s: SlackState, d: Decision): SlackState {
    if d.ack.Some? then s.(trace := s.trace + [Ack(d.ack.value)]) else s
  }

  /** One iteration of the reader loop as evidently intended, with a missing
      key read as JSON null: acknowledge first, then route, and go on. It is
      what the reader does with every frame that does not end it. */
  function IntendedReadStep(cfg: SlackConfig, s: SlackState, f: Frame): (r: SlackState)
    ensures r.threadTs == s.threadTs && r.websocketStarted == s.websocketStarted && r.readers == s.readers
    ensures r.registry.Keys == s.registry.Keys
  {
    var d := Classify(f, cfg.channelId, cfg.userId);
    var acked := Acked(s, d);
    match d.route
    case None => acked
    case Some(Route(ts, text)) =>
      if ts in acked.registry then
        acked.(registry := Deliver(acked.registry, ts, text), trace := acked.trace + [Broadcast(ts, text)])
      else
        acked
  }

  /** One iteration of the reader loop of connection `conn`, as written:
      acknowledge first, then inspect the event. An inspection that indexes
      a missing key panics and ends the loop for good; a connection whose
      reader has ended reads nothing more. */
  function ReadStep(cfg: SlackConfig, s: SlackState, conn: nat, f: Frame): (r: SlackState)
    ensures !Running(s, conn) ==> r == s
    ensures r.threadTs == s.threadTs && r.websocketStarted == s.websocketStarted
    ensures r.registry.Keys == s.registry.Keys && |r.readers| == |s.readers|
    ensures Running(s, conn) ==>
              r.readers == if Classify(f, cfg.channelId, cfg.userId).halts then s.readers[conn := false] else s.readers
    ensures RouteOf(f, cfg.channelId, cfg.userId).None? ==> r.registry == s.registry
    ensures Valid(s) ==> Valid(r)
  {
    if !Running(s, conn) then s
    else
      var d := Classify(f, cfg.channelId, cfg.userId);
      if d.halts then Acked(s, d).(readers := s.readers[conn := false])
      else IntendedReadStep(cfg, s, f)
  }

  /** The reader loop of connection `conn` over a sequence of frames, in
      arrival order. */
  function ReadAll(cfg: SlackConfig, s: SlackState, conn: nat, frames: seq<Frame>): (r: SlackState)
    ensures r.threadTs == s.threadTs && r.websocketStarted == s.websocketStarted
    ensures r.registry.Keys == s.registry.Keys && |r.readers| == |s.readers|
    decreases |frames|
  {
    if frames == [] then s
    else ReadStep(cfg, ReadAll(cfg, s, conn, frames[..|frames| - 1]), conn, frames[|frames| - 1])
  }

  /** The intended reader loop over a sequence of frames. */
  function IntendedReadAll(cfg: SlackConfig, s: SlackState, frames: seq<Frame>): (r: SlackState)
    ensures r.threadTs == s.threadTs && r.websocketStarted == s.websocketStarted && r.readers == s.readers
    ensures r.registry.Keys == s.registry.Keys
    decreases |frames|
  {
    if frames == [] then s
    else IntendedReadStep(cfg, IntendedReadAll(cfg, s, frames[..|frames| - 1]), frames[|frames| - 1])
  }

  /** Reading `a` and then `b` is reading `a + b`. */
  lemma {:induction false} ReadAllAppend(cfg: SlackConfig, s: SlackState, conn: nat, a: seq<Frame>, b: seq<Frame>)
    ensures ReadAll(cfg, s, conn, a + b) == ReadAll(cfg, ReadAll(cfg, s, conn, a), conn, b)
    decreases |b|
  {
    if b == [] {
      assert a + b == a;
    } else {
      var b' := b[..|b| - 1];
      assert (a + b)[..|a + b| - 1] == a + b';
      assert (a + b)[|a + b| - 1] == b[|b| - 1];
      ReadAllAppend(cfg, s, conn, a, b');
    }
  }

  /** What one frame does to a running reader: the acknowledgement comes
      first among its actions, the registry changes exactly by the routed
      delivery, the reader ends exactly on a panicking inspection, and the
      state of `ask` is untouched. */
  lemma ReadStepEffect(cfg: SlackConfig, s: SlackState, conn: nat, f: Frame)
    requires Running(s, conn)
    ensures var s' := ReadStep(cfg, s, conn, f);
            var d := Classify(f, cfg.channelId, cfg.userId);
            && s.trace <= s'.trace
            && (d.ack.Some? ==> |s.trace| < |s'.trace| && s'.trace[|s.trace|] == Ack(d.ack.value))
            && (d.ack.None? ==> forall i :: |s.trace| <= i < |s'.trace| ==> !s'.trace[i].Ack?)
            && s'.registry == (if d.route.Some? then Deliver(s.registry, d.route.value.threadTs, d.route.value.text)
                               else s.registry)
            && s'.readers == (if d.halts then s.readers[conn := false] else s.readers)
  {
  }

  /** The envelope ids the reader acknowledges for `frames`, in order. */
  function AckIds(frames: seq<Frame>): seq<string>
    decreases |frames|
  {
    if frames == [] then []
    else
      var last := Acknowledgement(frames[|frames| - 1]);
      AckIds(frames[..|frames| - 1]) + (if last.Some? then [last.value] else [])
  }

  /** The envelope ids acknowledged in a trace, in order. */
  function AcksIn(t: seq<Action>): seq<string>
    decreases |t|
  {
    if t == [] then []
    else AcksIn(t[..|t| - 1]) + (if t[|t| - 1].Ack? then [t[|t| - 1].envelopeId] else [])
  }

  lemma {:induction false} AcksInAppend(a: seq<Action>, b: seq<Action>)
    ensures AcksIn(a + b) == AcksIn(a) + AcksIn(b)
    decreases |b|
  {
    if b == [] {
      assert a + b == a;
    } else {
      var b' := b[..|b| - 1];
      assert (a + b)[..|a + b| - 1] == a + b';
      AcksInAppend(a, b');
    }
  }

  /** The acknowledgements a trace gained over two extensions are those of
      the first followed by those of the second. */
  lemma AcksOfExtension(a: seq<Action>, b: seq<Action>, c: seq<Action>)
    requires a <= b <= c
    ensures AcksIn(c[|a|..]) == AcksIn(b[|a|..]) + AcksIn(c[|b|..])
  {
    assert c[|a|..] == b[|a|..] + c[|b|..];
    AcksInAppend(b[|a|..], c[|b|..]);
  }

  /** Whether some frame of `frames` ends the reader. */
  predicate StopsWithin(cfg: SlackConfig, frames: seq<Frame>)
    decreases |frames|
  {
    frames != [] &&
    (StopsWithin(cfg, frames[..|frames| - 1]) || Classify(frames[|frames| - 1], cfg.channelId, cfg.userId).halts)
  }

  /** The frames a reader takes in: all of them, or those up to and including
      the first that ends it. */
  function Consumed(cfg: SlackConfig, frames: seq<Frame>): (r: seq<Frame>)
    ensures r <= frames
    ensures !StopsWithin(cfg, frames) ==> r == frames
    ensures StopsWithin(cfg, frames) ==>
              r != [] && Classify(r[|r| - 1], cfg.channelId, cfg.userId).halts && !StopsWithin(cfg, r[..|r| - 1])
    decreases |frames|
  {
    if frames == [] then []
    else if StopsWithin(cfg, frames[..|frames| - 1]) then Consumed(cfg, frames[..|frames| - 1])
    else frames
  }

  /** The acknowledgements one intended step adds to the trace. */
  lemma IntendedReadStepAcks(cfg: SlackConfig, s: SlackState, f: Frame)
    ensures var s' := IntendedReadStep(cfg, s, f);
            var a := Acknowledgement(f);
            && s.trace <= s'.trace
            && AcksIn(s'.trace[|s.trace|..]) == (if a.Some? then [a.value] else [])
  {
    var s' := IntendedReadStep(cfg, s, f);
    var d := Classify(f, cfg.channelId, cfg.userId);
    var added := s'.trace[|s.trace|..];
    if d.route.Some? && d.route.value.threadTs in s.registry {
      var b := Broadcast(d.route.value.threadTs, d.route.value.text);
      if d.ack.Some? {
        assert added == [Ack(d.ack.value)] + [b];
        AcksInAppend([Ack(d.ack.value)], [b]);
      } else {
        assert added == [b];
      }
    } else {
      assert added == if d.ack.Some? then [Ack(d.ack.value)] else [];
    }
  }

  /** The acknowledgements one frame adds to the trace of a running reader:
      its own, also when the frame then ends the reader. */
  lemma ReadStepAcks(cfg: SlackConfig, s: SlackState, conn: nat, f: Frame)
    requires Running(s, conn)
    ensures var s' := ReadStep(cfg, s, conn, f);
            var a := Acknowledgement(f);
            && s.trace <= s'.trace
            && AcksIn(s'.trace[|s.trace|..]) == (if a.Some? then [a.value] else [])
  {
    var d := Classify(f, cfg.channelId, cfg.userId);
    if d.halts {
      var s' := ReadStep(cfg, s, conn, f);
      assert s'.trace[|s.trace|..] == if d.ack.Some? then [Ack(d.ack.value)] else [];
    } else {
      IntendedReadStepAcks(cfg, s, f);
    }
  }

  /** A running reader acknowledges exactly the parsed frames that carry an
      envelope id, each once and in arrival order, up to and including the
      first frame that ends it, and nothing after it; it ends exactly when
      such a frame arrives. */
  lemma {:induction false} ReadAllAcknowledges(cfg: SlackConfig, s: SlackState, conn: nat, frames: seq<Frame>)
    requires Running(s, conn)
    ensures var s' := ReadAll(cfg, s, conn, frames);
            && s.trace <= s'.trace
            && AcksIn(s'.trace[|s.trace|..]) == AckIds(Consumed(cfg, frames))
            && s'.readers == (if StopsWithin(cfg, frames) then s.readers[conn := false] else s.readers)
    decreases |frames|
  {
    if frames == [] {
      assert ReadAll(cfg, s, conn, frames).trace[|s.trace|..] == [];
    } else {
      var init := frames[..|frames| - 1];
      var f := frames[|frames| - 1];
      var mid := ReadAll(cfg, s, conn, init);
      ReadAllAcknowledges(cfg, s, conn, init);
      var s' := ReadStep(cfg, mid, conn, f);
      if StopsWithin(cfg, init) {
        assert !Running(mid, conn);
        assert Consumed(cfg, frames) == Consumed(cfg, init);
      } else {
        assert Running(mid, conn);
        ReadStepAcks(cfg, mid, conn, f);
        AcksOfExtension(s.trace, mid.trace, s'.trace);
        assert Consumed(cfg, frames) == frames && Consumed(cfg, init) == init;
      }
    }
  }

  /** The intended reader acknowledges every parsed frame that carries an
      envelope id, over any sequence of frames, in arrival order. */
  lemma {:induction false} IntendedReadAllAcknowledges(cfg: SlackConfig, s: SlackState, frames: seq<Frame>)
    ensures var s' := IntendedReadAll(cfg, s, frames);
            && s.trace <= s'.trace
            && AcksIn(s'.trace[|s.trace|..]) == AckIds(frames)
    decreases |frames|
  {
    if frames == [] {
      assert IntendedReadAll(cfg, s, frames).trace[|s.trace|..] == [];
    } else {
      var init := frames[..|frames| - 1];
      var f := frames[|frames| - 1];
      var mid := IntendedReadAll(cfg, s, init);
      IntendedReadAllAcknowledges(cfg, s, init);
      IntendedReadStepAcks(cfg, mid, f);
      var s' := IntendedReadStep(cfg, mid, f);
      AcksOfExtension(s.trace, mid.trace, s'.trace);
    }
  }

  /** Until a frame ends it, the reader as written does what the intended
      reader does. */
  lemma {:induction false} ReadAllIntendedUntilStop(cfg: SlackConfig, s: SlackState, conn: nat, frames: seq<Frame>)
    requires Running(s, conn) && !StopsWithin(cfg, frames)
    ensures ReadAll(cfg, s, conn, frames) == IntendedReadAll(cfg, s, frames)
    decreases |frames|
  {
    if frames != [] {
      ReadAllIntendedUntilStop(cfg, s, conn, frames[..|frames| - 1]);
    }
  }

  /** A connection whose reader has ended, or was never opened, reads
      nothing: no frame is acknowledged or routed. */
  lemma {:induction false} ReadAfterStopDoesNothing(cfg: SlackConfig, s: SlackState, conn: nat, frames: seq<Frame>)
    requires !Running(s, conn)
    ensures ReadAll(cfg, s, conn, frames) == s
    decreases |frames|
  {
    if frames != [] {
      ReadAfterStopDoesNothing(cfg, s, conn, frames[..|frames| - 1]);
    }
  }

  /** A top-level message of the configured human in the configured channel
      (no `thread_ts`) is acknowledged and then ends the reader, so the next
      envelope goes unacknowledged; the intended reader acknowledges both. */
  lemma TopLevelMessageStopsReader(cfg: SlackConfig, s: SlackState, conn: nat, next: Frame)
    requires Running(s, conn) && Acknowledgement(next) == Some("E2")
    ensures var top := TextFrame(Some(Envelope(Some("E1"), Some("events_api"),
                        Some(InnerEvent(Str("message"), Str(cfg.channelId), Str(cfg.userId), Str("hi"), Absent)))));
            var s' := ReadAll(cfg, s, conn, [top, next]);
            var t := IntendedReadAll(cfg, s, [top, next]);
            && s.trace <= s'.trace && s.trace <= t.trace
            && AcksIn(s'.trace[|s.trace|..]) == ["E1"]
            && !Running(s', conn)
            && AcksIn(t.trace[|s.trace|..]) == ["E1", "E2"]
  {
    var top := TextFrame(Some(Envelope(Some("E1"), Some("events_api"),
                 Some(InnerEvent(Str("message"), Str(cfg.channelId), Str(cfg.userId), Str("hi"), Absent)))));
    var frames := [top, next];
    assert frames[..1] == [top];
    assert [top][..0] == [];
    assert StopsWithin(cfg, [top]);
    assert Consumed(cfg, frames) == [top];
    ReadAllAcknowledges(cfg, s, conn, frames);
    IntendedReadAllAcknowledges(cfg, s, frames);
  }

  /** Frames that are not thread replies of the configured human in the
      configured channel leave the registry as it was, whatever thread roots
      they name. */
  lemma {:induction false} ReadAllIgnoresForeignFrames(cfg: SlackConfig, s: SlackState, conn: nat, frames: seq<Frame>)
    requires forall i :: 0 <= i < |frames| ==> RouteOf(frames[i], cfg.channelId, cfg.userId).None?
    ensures ReadAll(cfg, s, conn, frames).registry == s.registry
    decreases |frames|
  {
    if frames != [] {
      ReadAllIgnoresForeignFrames(cfg, s, conn, frames[..|frames| - 1]);
    }
  }

  /** The reader keeps the invariant. */
  lemma {:induction false} ReadAllValid(cfg: SlackConfig, s: SlackState, conn: nat, frames: seq<Frame>)
    requires Valid(s)
    ensures Valid(ReadAll(cfg, s, conn, frames))
    decreases |frames|
  {
    if frames != [] {
      ReadAllValid(cfg, s, conn, frames[..|frames| - 1]);
    }
  }

  // ---------------------------------------------------------------------
  // ask

  /** The body of a `chat.postMessage` response: unreadable as JSON, or
      read, with `ts` present as a string or not. */
  datatype PostBody = Unreadable(detail: string) | Body(ts: Option<string>)

  /** The response to the post that creates the thread. */
  datatype PostResponse = PostFailed(detail: string) | Responded(success: bool, body: PostBody)

  /** The outcomes of the network calls one `ask` may make. */
  datatype AskEnv = AskEnv(socket: SocketEnv, create: PostResponse, reply: Sent, wait: WaitOutcome)

  /** The thread root a creating post yields: its `ts`, provided the status
      is a success and the body carries one; otherwise the error of the
      failed step. */
  function ThreadRoot(resp: PostResponse): (r: Result<string>)
    ensures r.Ok? <==> resp.Responded? && resp.success && resp.body.Body? && resp.body.ts.Some?
    ensures r.Ok? ==> r.value == resp.body.ts.value
    ensures resp.PostFailed? ==> r == Err(Transport(resp.detail))
    ensures resp.Responded? && !resp.success ==> r == Err(PostRejected)
    ensures resp.Responded? && resp.success && resp.body.Unreadable? ==> r == Err(Transport(resp.body.detail))
    ensures resp.Responded? && resp.success && resp.body == Body(None) ==> r == Err(NoTimestamp)
  {
    match resp
    case PostFailed(detail) => Err(Transport(detail))
    case Responded(success, body) =>
      if !success then Err(PostRejected)
      else
        match body
        case Unreadable(detail) => Err(Transport(detail))
        case Body(ts) => if ts.Some? then Ok(ts.value) else Err(NoTimestamp)
  }

  /** The top-level post that creates the thread: the mention and the
      question's title only. */
  function InitialPost(cfg: SlackConfig, question: string): Post {
    Post(cfg.channelId, Mention(cfg.userId, Title(question)), None)
  }

  /** The reply posted into an existing thread: the mention and the whole
      question. */
  function ReplyPost(cfg: SlackConfig, root: string, question: string): Post {
    Post(cfg.channelId, Mention(cfg.userId, question), Some(root))
  }

  /** Get the thread root, creating the thread when there is none yet. A
      failed creation leaves the root unset. */
  function EnsureThread(cfg: SlackConfig, s: SlackState, question: string, create: PostResponse): (r: (SlackState, Result<string>))
    ensures s.threadTs.Some? ==> r == (s, Ok(s.threadTs.value))
    ensures s.threadTs.None? ==>
              && r.1 == ThreadRoot(create)
              && r.0 == s.(trace := s.trace + [PostMessage(InitialPost(cfg, question))],
                           threadTs := if r.1.Ok? then Some(r.1.value) else None)
  {
    match s.threadTs
    case Some(root) => (s, Ok(root))
    case None =>
      var posted := s.(trace := s.trace + [PostMessage(InitialPost(cfg, question))]);
      match ThreadRoot(create)
      case Ok(root) => (posted.(threadTs := Some(root)), Ok(root))
      case Err(e) => (posted, Err(e))
  }

  function SubscribeStep(s: SlackState, root: string): (SlackState, nat) {
    var (registry, k) := AddSubscriber(s.registry, root);
    (s.(registry := registry, trace := s.trace + [Subscribe(root)]), k)
  }

  /** One `ask` call, as the sequence of its steps. It only appends to the
      trace, keeps a root once set, and answers only once the socket is
      started and the thread exists. */
  function AskStep(cfg: SlackConfig, s: SlackState, question: string, env: AskEnv): (r: (SlackState, Result<string>))
    ensures s.trace <= r.0.trace
    ensures s.threadTs.Some? ==> r.0.threadTs == s.threadTs
    ensures s.websocketStarted ==> r.0.readers == s.readers
    ensures r.1.Ok? ==> r.0.websocketStarted && r.0.threadTs.Some?
  {
    var (s1, started) := EnsureSocket(s, env.socket);
    if started.Fail? then (s1, Err(started.error))
    else
      var initial := s1.threadTs.None?;
      var (s2, root) := EnsureThread(cfg, s1, question, env.create);
      if root.Err? then (s2, Err(root.error))
      else
        var (s3, k) := SubscribeStep(s2, root.value);
        var s4 := if initial then s3 else s3.(trace := s3.trace + [PostMessage(ReplyPost(cfg, root.value, question))]);
        if !initial && env.reply.SendFailed? then (s4, Err(Transport(env.reply.detail)))
        else (s4.(trace := s4.trace + [Wait(root.value, k, SlackDeadline(cfg.timeoutMinutes))]), SlackWaitResult(env.wait))
  }

  /** Whether the socket guard of an ask lets it through. */
  predicate SocketReady(s: SlackState, env: SocketEnv) {
    s.websocketStarted || StartResult(env).Pass?
  }

  /** The socket is started by `ask` until one start succeeds, and never
      again after that; a failed start makes the ask fail and changes
      nothing, so the next ask retries. */
  lemma AskStartsSocketUntilSuccess(cfg: SlackConfig, s: SlackState, question: string, env: AskEnv)
    ensures var (s', r) := AskStep(cfg, s, question, env);
            && (s.websocketStarted ==> s'.websocketStarted && s'.readers == s.readers)
            && (!s.websocketStarted && StartResult(env.socket).Pass? ==>
                  s'.websocketStarted && s'.readers == s.readers + [true])
            && (!s.websocketStarted && StartResult(env.socket).Fail? ==>
                  s' == s && r == Err(StartResult(env.socket).error))
  {
  }

  /** The first ask posts one top-level message, the mention and the first
      100 characters of the question, and on success keeps its `ts` as the
      thread root, subscribes to it and waits, without a second post. When
      the creation fails the ask fails and the root stays unset. */
  lemma FirstAskCreatesThread(cfg: SlackConfig, s: SlackState, question: string, env: AskEnv)
    requires s.threadTs.None? && SocketReady(s, env.socket)
    ensures var (s', r) := AskStep(cfg, s, question, env);
            && |s.trace| <= |s'.trace|
            && match ThreadRoot(env.create)
               case Ok(root) =>
                 && s'.threadTs == Some(root)
                 && s'.registry == AddSubscriber(s.registry, root).0
                 && NewActions(s, s') == [PostMessage(InitialPost(cfg, question)), Subscribe(root),
                                          Wait(root, |Subscribers(s.registry, root)|, SlackDeadline(cfg.timeoutMinutes))]
                 && r == SlackWaitResult(env.wait)
               case Err(e) =>
                 && s'.threadTs.None?
                 && s'.registry == s.registry
                 && NewActions(s, s') == [PostMessage(InitialPost(cfg, question))]
                 && r == Err(e)
  {
  }

  /** A later ask keeps the root, subscribes to it before it posts the whole
      question as a reply in the thread, and waits only when that post was
      sent. */
  lemma LaterAskRepliesInThread(cfg: SlackConfig, s: SlackState, question: string, env: AskEnv, root: string)
    requires s.threadTs == Some(root) && SocketReady(s, env.socket)
    ensures var (s', r) := AskStep(cfg, s, question, env);
            && |s.trace| <= |s'.trace|
            && s'.threadTs == Some(root)
            && s'.registry == AddSubscriber(s.registry, root).0
            && NewActions(s, s') ==
                 [Subscribe(root), PostMessage(ReplyPost(cfg, root, question))] +
                 (if env.reply.Delivered?
                  then [Wait(root, |Subscribers(s.registry, root)|, SlackDeadline(cfg.timeoutMinutes))]
                  else [])
            && r == (if env.reply.Delivered? then SlackWaitResult(env.wait) else Err(Transport(env.reply.detail)))
  {
  }

  /** An ask keeps the invariant: in particular a set thread root never
      changes, and every threaded post goes to it. */
  lemma AskValid(cfg: SlackConfig, s: SlackState, question: string, env: AskEnv)
    requires Valid(s)
    ensures var s' := AskStep(cfg, s, question, env).0;
            && Valid(s')
            && (s.threadTs.Some? ==> s'.threadTs == s.threadTs)
  {
  }

  /** The correlation an ask relies on: once it has subscribed to the root,
      a reply of the configured human in that thread reaches its new
      subscriber as the first text there, while a frame from another
      channel or author reaches nobody. */
  lemma ReplyReachesWaitingAsk(cfg: SlackConfig, s: SlackState, question: string, env: AskEnv, root: string,
                               conn: nat, reply: Frame, foreign: Frame)
    requires SocketReady(s, env.socket)
    requires Running(s, conn) || (!s.websocketStarted && conn == |s.readers|)
    requires s.threadTs == Some(root) || (s.threadTs.None? && ThreadRoot(env.create) == Ok(root))
    requires Parsed(reply) && IsThreadReply(reply.json.value, cfg.channelId, cfg.userId)
    requires reply.json.value.event.value.threadTs == Str(root)
    requires RouteOf(foreign, cfg.channelId, cfg.userId).None?
    ensures var s' := AskStep(cfg, s, question, env).0;
            var k := |Subscribers(s.registry, root)|;
            && root in s'.registry && k < |s'.registry[root]| && s'.registry[root][k] == []
            && ReadStep(cfg, s', conn, reply).registry[root][k] == [reply.json.value.event.value.text.s]
            && ReadStep(cfg, s', conn, foreign).registry == s'.registry
  {
  }

  /** Two successful asks on a fresh instance: the second reuses the first
      ask's root and posts its question as a reply in that thread, not as a
      new top-level message, and the socket was started once. */
  lemma SecondAskReusesRoot(cfg: SlackConfig, q1: string, q2: string, env1: AskEnv, env2: AskEnv)
    requires StartResult(env1.socket).Pass? && ThreadRoot(env1.create).Ok?
    ensures var (s1, r1) := AskStep(cfg, Initial, q1, env1);
            var (s2, r2) := AskStep(cfg, s1, q2, env2);
            var root := ThreadRoot(env1.create).value;
            && s1.threadTs == s2.threadTs == Some(root)
            && |s2.readers| == 1
            && |s1.trace| <= |s2.trace|
            && NewActions(s1, s2)[..2] == [Subscribe(root), PostMessage(ReplyPost(cfg, root, q2))]
  {
    var s1 := AskStep(cfg, Initial, q1, env1).0;
    var root := ThreadRoot(env1.create).value;
    FirstAskCreatesThread(cfg, Initial, q1, env1);
    AskStartsSocketUntilSuccess(cfg, Initial, q1, env1);
    LaterAskRepliesInThread(cfg, s1, q2, env2, root);
    AskStartsSocketUntilSuccess(cfg, s1, q2, env2);
  }

  /** The binary opens a connection itself before the first ask, which then
      opens a second one: the socket is started twice, not once. */
  lemma BinaryOpensTwoConnections(cfg: SlackConfig, boot: SocketEnv, question: string, env: AskEnv)
    requires StartResult(boot).Pass? && StartResult(env.socket).Pass?
    ensures |AskStep(cfg, StartStep(Initial, boot).0, question, env).0.readers| == 2
  {
  }

  /** Once every reader has ended, no ask revives one: the flag says the
      socket is started, so the ask opens no connection, and no frame that
      arrives afterwards is acknowledged or reaches its subscriber. Such an
      ask can only end by the deadline. */
  lemma StoppedReadersStayStopped(cfg: SlackConfig, s: SlackState, question: string, env: AskEnv,
                                  conn: nat, frames: seq<Frame>)
    requires s.websocketStarted
    requires forall i :: 0 <= i < |s.readers| ==> !s.readers[i]
    ensures var s' := AskStep(cfg, s, question, env).0;
            && s'.readers == s.readers
            && ReadAll(cfg, s', conn, frames) == s'
  {
    var s' := AskStep(cfg, s, question, env).0;
    ReadAfterStopDoesNothing(cfg, s', conn, frames);
  }

  // ---------------------------------------------------------------------
  // The object

  class HumanInSlack {
    const channelId: string
    const userId: string
    const timeoutMinutes: Option<nat>
    var threadTs: Option<string>
    var websocketStarted: bool
    var readers: seq<bool>
    var registry: Registry
    var trace: seq<Action>

    function Config(): SlackConfig {
      SlackConfig(channelId, userId, timeoutMinutes)
    }

    function State(): SlackState
      reads this
    {
      SlackState(threadTs, websocketStarted, readers, registry, trace)
    }

    constructor (channelId: string, userId: string, timeoutMinutes: Option<nat>)
      ensures Config() == SlackConfig(channelId, userId, timeoutMinutes)
      ensures State() == Initial
    {
      this.channelId := channelId;
      this.userId := userId;
      this.timeoutMinutes := timeoutMinutes;
      threadTs := None;
      websocketStarted := false;
      readers := [];
      registry := map[];
      trace := [];
    }

    method StartSocketConnection(env: SocketEnv) returns (o: Outcome)
      modifies this
      ensures (State(), o) == StartStep(old(State()), env)
    {
      var url := WebSocketUrl(env.open);
      if url.Err? {
        return Fail(url.error);
      }
      if env.connect.ConnectFailed? {
        return Fail(Transport(env.connect.detail));
      }
      readers := readers + [true];
      o := Pass;
    }

    /** One iteration of the reader loop of connection `conn`. */
    method HandleFrame(conn: nat, f: Frame)
      modifies this
      ensures State() == ReadStep(Config(), old(State()), conn, f)
    {
      if !(conn < |readers| && readers[conn]) {
        return;
      }
      var d := Classify(f, channelId, userId);
      if d.ack.Some? {
        trace := trace + [Ack(d.ack.value)];
      }
      if d.halts {
        readers := readers[conn := false];
        return;
      }
      if d.route.Some? {
        var ts, text := d.route.value.threadTs, d.route.value.text;
        if ts in registry {
          registry := Deliver(registry, ts, text);
          trace := trace + [Broadcast(ts, text)];
        }
      }
    }

    /** The reader loop of connection `conn`, run over the frames that
      arrive; it ends early when a frame ends the reader. */
    method RunReader(conn: nat, frames: seq<Frame>)
      modifies this
      ensures State() == ReadAll(Config(), old(State()), conn, frames)
    {
      var i := 0;
      while i < |frames| && conn < |readers| && readers[conn]
        invariant 0 <= i <= |frames|
        invariant State() == ReadAll(Config(), old(State()), conn, frames[..i])
      {
        HandleFrame(conn, frames[i]);
        assert frames[..i + 1][..i] == frames[..i];
        i := i + 1;
      }
      ReadAllAppend(Config(), old(State()), conn, frames[..i], frames[i..]);
      assert frames[..i] + frames[i..] == frames;
      if i < |frames| {
        ReadAfterStopDoesNothing(Config(), State(), conn, frames[i..]);
      } else {
        assert frames[i..] == [];
      }
    }

    method Ask(question: string, env: AskEnv) returns (r: Result<string>)
      modifies this
      ensures (State(), r) == AskStep(Config(), old(State()), question, env)
    {
      if !websocketStarted {
        var o := StartSocketConnection(env.socket);
        if o.Fail? {
          return Err(o.error);
        }
        websocketStarted := true;
      }
      var initial := threadTs.None?;
      if threadTs.None? {
        trace := trace + [PostMessage(InitialPost(Config(), question))];
        var created := ThreadRoot(env.create);
        if created.Err? {
          return Err(created.error);
        }
        threadTs := Some(created.value);
      }
      var root := threadTs.value;
      var subscribers := if root in registry then registry[root] else [];
      registry := registry[root := subscribers + [[]]];
      trace := trace + [Subscribe(root)];
      var k := |subscribers|;
      if !initial {
        trace := trace + [PostMessage(ReplyPost(Config(), root, question))];
        if env.reply.SendFailed? {
          return Err(Transport(env.reply.detail));
        }
      }
      trace := trace + [Wait(root, k, SlackDeadline(timeoutMinutes))];
      r := SlackWaitResult(env.wait);
    }
  }
}
