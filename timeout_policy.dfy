/** How long each backend waits for the human and how the end of that wait
    becomes the answer of `ask`. A timeout is not an error: it yields the
    fixed deferral text. */
module TimeoutPolicy {
  import opened Interaction

  /** How long a wait may last. */
  datatype Deadline = After(seconds: nat) | Unbounded

  const SlackFallbackSeconds: nat := 300

  /** The Slack backend's wait: `m` minutes when configured, otherwise a
      fallback of 300 seconds, so that wait is never unbounded. */
  function SlackDeadline(timeoutMinutes: Option<nat>): (d: Deadline)
    ensures d.After?
    ensures timeoutMinutes.Some? ==> d.seconds == timeoutMinutes.value * 60
    ensures timeoutMinutes.None? ==> d.seconds == SlackFallbackSeconds
  {
    match timeoutMinutes
    case Some(m) => After(m * 60)
    case None => After(SlackFallbackSeconds)
  }

  /** The Discord backend's wait: `m` minutes when configured, otherwise no
      bound at all. */
  function DiscordDeadline(timeoutMinutes: Option<nat>): (d: Deadline)
    ensures d.Unbounded? <==> timeoutMinutes.None?
    ensures timeoutMinutes.Some? ==> d == After(timeoutMinutes.value * 60)
  {
    match timeoutMinutes
    case Some(m) => After(m * 60)
    case None => Unbounded
  }

  /** The command line's default of five minutes gives the Slack backend the
      same wait as its built-in fallback. */
  lemma DefaultTimeoutEqualsFallback()
    ensures SlackDeadline(Some(5)) == SlackDeadline(None)
  {
  }

  /** The two backends wait equally long whenever a timeout is configured;
      they differ only when it is not. */
  lemma DeadlinesAgreeWhenConfigured(timeoutMinutes: Option<nat>)
    ensures SlackDeadline(timeoutMinutes) == DiscordDeadline(timeoutMinutes) <==> timeoutMinutes.Some?
  {
  }

  /** How the Slack wait on a broadcast subscription can end. */
  datatype WaitOutcome =
    | Reply(text: string)  // a text arrived on the subscription
    | Closed               // every sender of the channel is gone
    | Lagged               // the subscriber fell behind and lost texts
    | Elapsed              // the deadline passed first

  /** The Slack backend's answer for each way its wait can end. */
  function SlackWaitResult(o: WaitOutcome): (r: Result<string>)
    ensures r.Ok? <==> o.Reply? || o.Elapsed?
    ensures o.Reply? ==> r == Ok(o.text)
    ensures o.Elapsed? ==> r == Ok(Deferral)
    ensures o.Closed? ==> r == Err(ChannelClosed)
    ensures o.Lagged? ==> r == Err(MessageLagged)
  {
    match o
    case Reply(text) => Ok(text)
    case Closed => Err(ChannelClosed)
    case Lagged => Err(MessageLagged)
    case Elapsed => Ok(Deferral)
  }

  /** The Discord backend's answer. `reply` is what the wait for the next
      message in the thread produced: the content of that message, or
      nothing (the deadline passed, or the stream of messages ended). */
  function DiscordWaitResult(timeoutMinutes: Option<nat>, reply: Option<string>): (r: Result<string>)
    ensures reply.Some? ==> r == Ok(reply.value)
    ensures reply.None? && timeoutMinutes.Some? ==> r == Ok(Deferral)
    ensures reply.None? && timeoutMinutes.None? ==> r == Err(AwaitFailed)
    ensures r.Err? <==> reply.None? && timeoutMinutes.None?
  {
    match timeoutMinutes
    case Some(_) =>
      (match reply
       case Some(content) => Ok(content)
       case None => Ok(Deferral))
    case None =>
      (match reply
       case Some(content) => Ok(content)
       case None => Err(AwaitFailed))
  }

  /** Both backends turn a timed-out wait into the same successful deferral,
      and both return a reply verbatim. */
  lemma BackendsAgreeOnTimeoutAndReply(m: nat, text: string)
    ensures SlackWaitResult(Elapsed) == DiscordWaitResult(Some(m), None) == Ok(Deferral)
    ensures SlackWaitResult(Reply(text)) == DiscordWaitResult(Some(m), Some(text))
                                         == DiscordWaitResult(None, Some(text)) == Ok(text)
  {
  }

  /** Without a timeout the Discord backend only succeeds with a reply it
      actually received. */
  lemma UnboundedDiscordWaitNeverDefers(reply: Option<string>, answer: string)
    requires DiscordWaitResult(None, reply) == Ok(answer)
    ensures reply == Some(answer)
  {
  }
}
