/** Frames read from the Slack Socket Mode stream, already decoded, and the
    reader's decision for each one: which acknowledgement to send and which
    text to route to which thread. */
module SlackEvents {
  import opened Interaction

  /** A key of the `payload.event` object: absent, present with a value
      that is not a JSON string, or a JSON string. The object is a JSON map,
      and indexing a map by a key it lacks panics rather than yielding
      null, so absence has to be told apart. */
  datatype Field = Absent | NotString | Str(s: string)

  /** The `payload.event` object of an envelope. */
  datatype InnerEvent = InnerEvent(
    kind: Field,
    channel: Field,
    user: Field,
    text: Field,
    threadTs: Field)

  /** A decoded envelope. `event` is `None` when `payload.event` is absent or
      not a JSON object. */
  datatype Envelope = Envelope(
    envelopeId: Option<string>,
    kind: Option<string>,
    event: Option<InnerEvent>)

  /** One item of the stream: a text frame (`json` is `None` when its text
      does not parse as JSON), or anything else (binary, ping, close, or a
      read error). */
  datatype Frame = TextFrame(json: Option<Envelope>) | OtherFrame

  /** A text to publish to the subscribers of a thread root. */
  datatype Route = Route(threadTs: string, text: string)

  /** What the reader does with one frame: `ack` is the envelope id to
      acknowledge, `route` the delivery to attempt, and `halts` says that
      the inspection of the event panicked, which ends the reader. */
  datatype Decision = Decision(ack: Option<string>, route: Option<Route>, halts: bool)

  /** The envelope of a frame that parsed as JSON. */
  predicate Parsed(f: Frame) {
    f.TextFrame? && f.json.Some?
  }

  /** An `events_api` envelope whose `payload.event` is an object: the only
      envelopes whose event the reader inspects. */
  predicate IsEventsApi(e: Envelope) {
    e.kind == Some("events_api") && e.event.Some?
  }

  /** A message event written by `userId` in channel `channelId` as a reply
      in some thread. */
  predicate IsThreadReply(e: Envelope, channelId: string, userId: string) {
    && IsEventsApi(e)
    && e.event.value.kind == Str("message")
    && e.event.value.channel == Str(channelId)
    && e.event.value.user == Str(userId)
    && e.event.value.text.Str?
    && e.event.value.threadTs.Str?
  }

  /** Whether inspecting the event indexes a key the event lacks. The keys
      are looked up in order, each only when the comparisons before it held:
      `type`, then `channel` if the type is "message", then `user` if the
      channel matches, then `text` if the user matches, then `thread_ts` if
      the text is a string. */
  predicate IndexesMissingKey(ev: InnerEvent, channelId: string, userId: string) {
    || ev.kind.Absent?
    || (ev.kind == Str("message") &&
        (|| ev.channel.Absent?
         || (ev.channel == Str(channelId) &&
             (|| ev.user.Absent?
              || (ev.user == Str(userId) &&
                  (|| ev.text.Absent?
                   || (ev.text.Str? && ev.threadTs.Absent?)))))))
  }

  function Acknowledgement(f: Frame): Option<string> {
    if Parsed(f) then f.json.value.envelopeId else None
  }

  function RouteOf(f: Frame, channelId: string, userId: string): Option<Route> {
    if Parsed(f) && IsThreadReply(f.json.value, channelId, userId) then
      var ev := f.json.value.event.value;
      Some(Route(ev.threadTs.s, ev.text.s))
    else
      None
  }

  predicate Halts(f: Frame, channelId: string, userId: string) {
    Parsed(f) && IsEventsApi(f.json.value) && IndexesMissingKey(f.json.value.event.value, channelId, userId)
  }

  /** The reader's decision for one frame. An acknowledgement is sent for
      every parsed text frame that carries a string envelope id, whatever the
      event is, and before the event is inspected; a route exists exactly for
      thread replies of the configured human in the configured channel. The
      reader halts only on an `events_api` event lacking a key it indexes: a
      message of the configured human in the configured channel that is not
      in a thread is one, and an event carrying every key never is. */
  function Classify(f: Frame, channelId: string, userId: string): (d: Decision)
    ensures d.ack.Some? <==> Parsed(f) && f.json.value.envelopeId.Some?
    ensures d.ack.Some? ==> d.ack == f.json.value.envelopeId
    ensures d.route.Some? <==> Parsed(f) && IsThreadReply(f.json.value, channelId, userId)
    ensures d.route.Some? ==>
              Str(d.route.value.threadTs) == f.json.value.event.value.threadTs &&
              Str(d.route.value.text) == f.json.value.event.value.text
    ensures d.halts ==> d.route.None?
    ensures d.halts ==> Parsed(f) && IsEventsApi(f.json.value)
    ensures Parsed(f) && IsEventsApi(f.json.value) && f.json.value.event.value.kind.Absent? ==> d.halts
    ensures Parsed(f) && IsEventsApi(f.json.value) && AllKeysPresent(f.json.value.event.value) ==> !d.halts
    ensures Parsed(f) && IsEventsApi(f.json.value) &&
            f.json.value.event.value.kind == Str("message") &&
            f.json.value.event.value.channel == Str(channelId) &&
            f.json.value.event.value.user == Str(userId) &&
            f.json.value.event.value.text.Str? ==>
              (d.halts <==> f.json.value.event.value.threadTs.Absent?)
  {
    Decision(Acknowledgement(f), RouteOf(f, channelId, userId), Halts(f, channelId, userId))
  }

  /** Every key the reader may index is present. */
  predicate AllKeysPresent(ev: InnerEvent) {
    !ev.kind.Absent? && !ev.channel.Absent? && !ev.user.Absent? && !ev.text.Absent? && !ev.threadTs.Absent?
  }

  /** A frame from another channel or another author is never routed, even
      when it names a thread root that has subscribers. */
  lemma ForeignFrameNotRouted(f: Frame, channelId: string, userId: string)
    requires Parsed(f) && f.json.value.event.Some?
    requires f.json.value.event.value.channel != Str(channelId) ||
             f.json.value.event.value.user != Str(userId)
    ensures Classify(f, channelId, userId).route.None?
  {
  }
}
