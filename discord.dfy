/** The Discord backend: a gateway handler whose `ready` event provides the
    context once, and an `ask` that creates one public thread under the
    configured channel on first use, sends each question into it with a
    mention of the human, and waits for the next message there. */
module Discord {
  import opened Interaction
  import opened TimeoutPolicy

  /** The gateway context handed over by the `ready` event (its HTTP client
      and cache), opaque here. */
  datatype Context = Context(session: nat)

  datatype ThreadKind = PublicThread
  datatype AutoArchive = OneDay

  /** The outward effects of the backend, in the order they happen. */
  datatype DiscordAction =
    | CreateThread(parent: nat, title: string, kind: ThreadKind, archive: AutoArchive)
    | SendMessage(channel: nat, content: string)
    | AwaitReply(channel: nat, deadline: Deadline)

  datatype DiscordConfig = DiscordConfig(userId: nat, channelId: nat, timeoutMinutes: Option<nat>)

  datatype DiscordState = DiscordState(ctx: Option<Context>, thread: Option<nat>, trace: seq<DiscordAction>)

  const Initial: DiscordState := DiscordState(None, None, [])

  /** The outcomes of the gateway calls one `ask` may make: the thread
      creation, the send, and the wait for the next message in the thread. */
  datatype CreateOutcome = Created(id: nat) | CreateFailed(detail: string)
  datatype DiscordEnv = DiscordEnv(create: CreateOutcome, send: Sent, reply: Option<string>)

  function NewActions(before: DiscordState, after: DiscordState): seq<DiscordAction>
    requires |before.trace| <= |after.trace|
  {
    after.trace[|before.trace|..]
  }

  // ---------------------------------------------------------------------
  // The ready event

  /** The context cell after a `ready` event: set by the first one, left
      as it is by every later one. */
  function ReadyStep(ctx: Option<Context>, c: Context): (r: Option<Context>)
    ensures r.Some?
    ensures ctx.Some? ==> r == ctx
    ensures ctx.None? ==> r == Some(c)
  {
    if ctx.None? then Some(c) else ctx
  }

  /** The context cell after a sequence of `ready` events. */
  function ReadyAll(ctx: Option<Context>, events: seq<Context>): (r: Option<Context>)
    ensures r.None? <==> ctx.None? && events == []
    decreases |events|
  {
    if events == [] then ctx
    else ReadyStep(ReadyAll(ctx, events[..|events| - 1]), events[|events| - 1])
  }

  /** Only the first `ready` event sets the context; a set context is never
      replaced. */
  lemma {:induction false} FirstReadyWins(ctx: Option<Context>, events: seq<Context>)
    ensures ctx.Some? ==> ReadyAll(ctx, events) == ctx
    ensures ctx.None? && events != [] ==> ReadyAll(ctx, events) == Some(events[0])
    ensures ctx.None? && events == [] ==> ReadyAll(ctx, events).None?
    decreases |events|
  {
    if |events| > 1 {
      var init := events[..|events| - 1];
      FirstReadyWins(ctx, init);
      assert init[0] == events[0];
    }
  }

  // ---------------------------------------------------------------------
  // ask

  /** The request that creates the thread: under the configured channel, a
      public thread archived after a day, titled with the question's first
      100 characters. */
  function ThreadRequest(cfg: DiscordConfig, question: string): DiscordAction {
    CreateThread(cfg.channelId, Title(question), PublicThread, OneDay)
  }

  /** The message sent on every ask: the mention, then the whole question. */
  function QuestionMessage(cfg: DiscordConfig, question: string): string {
    Mention(Decimal(cfg.userId), question)
  }

  /** Get the thread, creating it when there is none yet. A failed creation
      leaves the thread unset. */
  function EnsureThread(cfg: DiscordConfig, s: DiscordState, question: string, create: CreateOutcome): (r: (DiscordState, Result<nat>))
    ensures s.thread.Some? ==> r == (s, Ok(s.thread.value))
    ensures s.thread.None? ==> r.0.ctx == s.ctx && r.0.trace == s.trace + [ThreadRequest(cfg, question)]
    ensures s.thread.None? && create.Created? ==> r.0.thread == Some(create.id) && r.1 == Ok(create.id)
    ensures s.thread.None? && create.CreateFailed? ==> r.0.thread.None? && r.1 == Err(Transport(create.detail))
  {
    match s.thread
    case Some(id) => (s, Ok(id))
    case None =>
      var requested := s.(trace := s.trace + [ThreadRequest(cfg, question)]);
      match create
      case Created(id) => (requested.(thread := Some(id)), Ok(id))
      case CreateFailed(detail) => (requested, Err(Transport(detail)))
  }

  /** One `ask` call, as the sequence of its steps. It only appends to the
      trace, never touches the context, keeps a thread once set, and answers
      only when the context is set and the thread exists. */
  function AskStep(cfg: DiscordConfig, s: DiscordState, question: string, env: DiscordEnv): (r: (DiscordState, Result<string>))
    ensures s.trace <= r.0.trace && r.0.ctx == s.ctx
    ensures s.thread.Some? ==> r.0.thread == s.thread
    ensures r.1.Ok? ==> s.ctx.Some? && r.0.thread.Some?
  {
    if s.ctx.None? then (s, Err(NotReady))
    else
      var (s1, thread) := EnsureThread(cfg, s, question, env.create);
      if thread.Err? then (s1, Err(thread.error))
      else
        var id := thread.value;
        var s2 := s1.(trace := s1.trace + [SendMessage(id, QuestionMessage(cfg, question))]);
        if env.send.SendFailed? then (s2, Err(Transport(env.send.detail)))
        else
          (s2.(trace := s2.trace + [AwaitReply(id, DiscordDeadline(cfg.timeoutMinutes))]),
           DiscordWaitResult(cfg.timeoutMinutes, env.reply))
  }

  /** Without a context an ask fails as not ready, before it creates or sends
      anything. */
  lemma NotReadyAskDoesNothing(cfg: DiscordConfig, s: DiscordState, question: string, env: DiscordEnv)
    requires s.ctx.None?
    ensures AskStep(cfg, s, question, env) == (s, Err(NotReady))
  {
  }

  /** The first ready ask creates the thread, then sends the whole question
      into it; a failed creation ends the ask with nothing sent and the
      thread still unset. */
  lemma FirstAskCreatesThread(cfg: DiscordConfig, s: DiscordState, question: string, env: DiscordEnv)
    requires s.ctx.Some? && s.thread.None?
    ensures var (s', r) := AskStep(cfg, s, question, env);
            && |s.trace| <= |s'.trace|
            && s'.ctx == s.ctx
            && match env.create
               case Created(id) =>
                 && s'.thread == Some(id)
                 && NewActions(s, s') ==
                      [ThreadRequest(cfg, question), SendMessage(id, QuestionMessage(cfg, question))] +
                      (if env.send.Delivered? then [AwaitReply(id, DiscordDeadline(cfg.timeoutMinutes))] else [])
                 && r == (if env.send.Delivered? then DiscordWaitResult(cfg.timeoutMinutes, env.reply)
                          else Err(Transport(env.send.detail)))
               case CreateFailed(detail) =>
                 && s'.thread.None?
                 && NewActions(s, s') == [ThreadRequest(cfg, question)]
                 && r == Err(Transport(detail))
  {
  }

  /** A later ask reuses the thread: no creation, the whole question sent
      into it, then the wait. */
  lemma LaterAskReusesThread(cfg: DiscordConfig, s: DiscordState, question: string, env: DiscordEnv, id: nat)
    requires s.ctx.Some? && s.thread == Some(id)
    ensures var (s', r) := AskStep(cfg, s, question, env);
            && |s.trace| <= |s'.trace|
            && s'.ctx == s.ctx && s'.thread == Some(id)
            && NewActions(s, s') ==
                 [SendMessage(id, QuestionMessage(cfg, question))] +
                 (if env.send.Delivered? then [AwaitReply(id, DiscordDeadline(cfg.timeoutMinutes))] else [])
            && r == (if env.send.Delivered? then DiscordWaitResult(cfg.timeoutMinutes, env.reply)
                     else Err(Transport(env.send.detail)))
  {
  }

  /** A sequence of asks, one per question, each with its own outcomes. */
  function AskAll(cfg: DiscordConfig, s: DiscordState, questions: seq<string>, envs: seq<DiscordEnv>): (r: DiscordState)
    requires |questions| == |envs|
    ensures s.trace <= r.trace && r.ctx == s.ctx
    ensures s.ctx.None? ==> r == s
    decreases |questions|
  {
    if questions == [] then s
    else
      var n := |questions| - 1;
      AskStep(cfg, AskAll(cfg, s, questions[..n], envs[..n]), questions[n], envs[n]).0
  }

  /** Once the thread exists, any number of further asks keep it and never
      request another one. */
  lemma {:induction false} ThreadCreatedAtMostOnce(cfg: DiscordConfig, s: DiscordState, questions: seq<string>,
                                                   envs: seq<DiscordEnv>, id: nat)
    requires |questions| == |envs|
    requires s.thread == Some(id)
    ensures var s' := AskAll(cfg, s, questions, envs);
            && s'.thread == Some(id)
            && s.trace <= s'.trace
            && forall i :: |s.trace| <= i < |s'.trace| ==> !s'.trace[i].CreateThread?
    decreases |questions|
  {
    if questions != [] {
      var n := |questions| - 1;
      var mid := AskAll(cfg, s, questions[..n], envs[..n]);
      ThreadCreatedAtMostOnce(cfg, s, questions[..n], envs[..n], id);
      if mid.ctx.Some? {
        LaterAskReusesThread(cfg, mid, questions[n], envs[n], id);
        var s' := AskStep(cfg, mid, questions[n], envs[n]).0;
        forall i | |s.trace| <= i < |s'.trace|
          ensures !s'.trace[i].CreateThread?
        {
          if i >= |mid.trace| {
            assert s'.trace[i] == NewActions(mid, s')[i - |mid.trace|];
          }
        }
      }
    }
  }

  // ---------------------------------------------------------------------
  // The objects

  /** The gateway event handler. It is shared between the gateway client and
      the backend, so both see the same context cell. */
  class Handler {
    var ctx: Option<Context>

    constructor ()
      ensures ctx.None?
    {
      ctx := None;
    }

    method Ready(c: Context)
      modifies this
      ensures ctx == ReadyStep(old(ctx), c)
    {
      if ctx.None? {
        ctx := Some(c);
      }
    }
  }

  class HumanInDiscord {
    const userId: nat
    const channelId: nat
    const timeoutMinutes: Option<nat>
    const handler: Handler
    var thread: Option<nat>
    var trace: seq<DiscordAction>

    function Config(): DiscordConfig {
      DiscordConfig(userId, channelId, timeoutMinutes)
    }

    function State(): DiscordState
      reads this, handler
    {
      DiscordState(handler.ctx, thread, trace)
    }

    constructor (userId: nat, channelId: nat, timeoutMinutes: Option<nat>)
      ensures Config() == DiscordConfig(userId, channelId, timeoutMinutes)
      ensures State() == Initial
      ensures fresh(handler)
    {
      this.userId := userId;
      this.channelId := channelId;
      this.timeoutMinutes := timeoutMinutes;
      handler := new Handler();
      thread := None;
      trace := [];
    }

    method Ask(question: string, env: DiscordEnv) returns (r: Result<string>)
      modifies this
      ensures (State(), r) == AskStep(Config(), old(State()), question, env)
    {
      if handler.ctx.None? {
        return Err(NotReady);
      }
      if thread.None? {
        trace := trace + [ThreadRequest(Config(), question)];
        if env.create.CreateFailed? {
          return Err(Transport(env.create.detail));
        }
        thread := Some(env.create.id);
      }
      var id := thread.value;
      trace := trace + [SendMessage(id, QuestionMessage(Config(), question))];
      if env.send.SendFailed? {
        return Err(Transport(env.send.detail));
      }
      trace := trace + [AwaitReply(id, DiscordDeadline(timeoutMinutes))];
      r := DiscordWaitResult(timeoutMinutes, env.reply);
    }
  }

  /** The gateway and the backend share one handler: a `ready` delivered to
      the gateway's copy makes the backend ready. */
  method ReadyThroughGateway(human: HumanInDiscord, c: Context)
    modifies human.handler
    ensures human.State() == old(human.State()).(ctx := ReadyStep(old(human.handler.ctx), c))
  {
    var gateway := human.handler;
    gateway.Ready(c);
  }
}
