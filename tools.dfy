/** The two tools offered to the agent, `ask_human` and `notify_human`, over
    whichever backend the process was configured with. Both block on the
    same `ask`; they differ only in what they return. */
module Tools {
  import opened Interaction
  import Slack
  import Discord

  /** What a tool call returns to the agent: a text result, or a tool error
      wrapping the error of `ask`. */
  datatype ToolResult = TextContent(text: string) | ToolError(error: Error)

  const StatusReported: string := "Status reported successfully"

  /** `ask_human`: the answer of `ask` becomes the tool's text unchanged; an
      error of `ask` becomes a tool error and no text. */
  function AskHumanResult(answer: Result<string>): (r: ToolResult)
    ensures r.TextContent? <==> answer.Ok?
    ensures answer.Ok? ==> r.text == answer.value
    ensures answer.Err? ==> r == ToolError(answer.error)
  {
    match answer
    case Ok(text) => TextContent(text)
    case Err(e) => ToolError(e)
  }

  /** `notify_human`: any successful `ask` yields the fixed acknowledgement;
      an error of `ask` becomes a tool error. */
  function NotifyHumanResult(answer: Result<string>): (r: ToolResult)
    ensures r.TextContent? <==> answer.Ok?
    ensures answer.Ok? ==> r.text == StatusReported
    ensures answer.Err? ==> r == ToolError(answer.error)
  {
    match answer
    case Ok(_) => TextContent(StatusReported)
    case Err(e) => ToolError(e)
  }

  /** What the human replies makes no difference to `notify_human`, while
      `ask_human` tells any two replies apart. */
  lemma NotifyDiscardsReply(a: string, b: string)
    ensures NotifyHumanResult(Ok(a)) == NotifyHumanResult(Ok(b))
    ensures AskHumanResult(Ok(a)) == AskHumanResult(Ok(b)) <==> a == b
  {
  }

  /** Both tools fail exactly when `ask` fails, with the same error. */
  lemma ToolsAgreeOnErrors(answer: Result<string>)
    ensures AskHumanResult(answer).ToolError? <==> NotifyHumanResult(answer).ToolError?
    ensures answer.Err? ==> AskHumanResult(answer) == NotifyHumanResult(answer) == ToolError(answer.error)
  {
  }

  /** The backend chosen at start-up. */
  datatype Human = InSlack(slack: Slack.HumanInSlack) | InDiscord(discord: Discord.HumanInDiscord)

  /** The outcomes of the network calls of one `ask`, for either backend. */
  datatype HumanEnv = HumanEnv(slack: Slack.AskEnv, discord: Discord.DiscordEnv)

  function Footprint(human: Human): set<object> {
    match human
    case InSlack(h) => {h}
    case InDiscord(h) => {h}
  }

  /** `answer` is what the backend's `ask` returned for `question`, and the
      backend moved to the state that call leads to. */
  twostate predicate Asked(human: Human, question: string, env: HumanEnv, new answer: Result<string>)
    reads Footprint(human), if human.InDiscord? then {human.discord.handler} else {}
  {
    match human
    case InSlack(h) =>
      (h.State(), answer) == Slack.AskStep(h.Config(), old(h.State()), question, env.slack)
    case InDiscord(h) =>
      (h.State(), answer) == Discord.AskStep(h.Config(), old(h.State()), question, env.discord)
  }

  /** `ask` on whichever backend is configured. */
  method Ask(human: Human, question: string, env: HumanEnv) returns (answer: Result<string>)
    modifies Footprint(human)
    ensures Asked(human, question, env, answer)
  {
    match human
    case InSlack(h) =>
      answer := h.Ask(question, env.slack);
    case InDiscord(h) =>
      answer := h.Ask(question, env.discord);
  }

  /** `ask_human`: passes the question to `ask` unchanged. */
  method CallAskHuman(human: Human, question: string, env: HumanEnv) returns (r: ToolResult, ghost answer: Result<string>)
    modifies Footprint(human)
    ensures Asked(human, question, env, answer)
    ensures r == AskHumanResult(answer)
  {
    var a := Ask(human, question, env);
    answer := a;
    r := AskHumanResult(a);
  }

  /** `notify_human`: the same blocking `ask`, with the message as the
      question. */
  method CallNotifyHuman(human: Human, message: string, env: HumanEnv) returns (r: ToolResult, ghost answer: Result<string>)
    modifies Footprint(human)
    ensures Asked(human, message, env, answer)
    ensures r == NotifyHumanResult(answer)
  {
    var a := Ask(human, message, env);
    answer := a;
    r := NotifyHumanResult(a);
  }
}
