/** Vocabulary shared by both chat backends and the tool adapter: optional
    values, results carrying the errors `ask` can report, the title
    truncation, the mention prefix and the fixed deferral text. */
module Interaction {

  datatype Option<T> = None | Some(value: T) {
    function GetOr(default: T): T {
      match this
      case Some(v) => v
      case None => default
    }
  }

  /** Every error an `ask` call can end with. `Transport` stands for an error
      propagated unchanged from an HTTP, WebSocket or gateway call; its
      detail is whatever that call reported. */
  datatype Error =
    | Transport(detail: string)
    | BootstrapRejected(reason: string)
    | NoWebSocketUrl
    | PostRejected
    | NoTimestamp
    | ChannelClosed
    | MessageLagged
    | NotReady
    | AwaitFailed

  datatype Result<T> = Ok(value: T) | Err(error: Error)

  /** Outcome of a step that has no value of its own. */
  datatype Outcome = Pass | Fail(error: Error)

  /** Outcome of a send whose response is not inspected. */
  datatype Sent = Delivered | SendFailed(detail: string)

  const TitleLength: nat := 100

  /** The first 100 characters of a question, used as a thread title. */
  function Title(question: string): (t: string)
    ensures |t| == if |question| <= TitleLength then |question| else TitleLength
    ensures t <= question
    ensures |question| <= TitleLength ==> t == question
  {
    if |question| <= TitleLength then question else question[..TitleLength]
  }

  /** The mention that makes the chat platform notify `user`. */
  function MentionPrefix(user: string): string {
    "<@" + user + "> "
  }

  /** A message body addressed to `user`: the mention, then `text` verbatim. */
  function Mention(user: string, text: string): (m: string)
    ensures |m| == |MentionPrefix(user)| + |text|
    ensures MentionPrefix(user) <= m
    ensures m[|MentionPrefix(user)|..] == text
  {
    MentionPrefix(user) + text
  }

  /** Two mentions of the same user are equal only for equal texts. */
  lemma MentionInjective(user: string, a: string, b: string)
    requires Mention(user, a) == Mention(user, b)
    ensures a == b
  {
  }

  /** The text both backends return when the human does not answer in time. */
  const Deferral: string :=
    "Please think autonomously. If you can adopt methods to delay decision-making, please use those approaches. If decision-making is necessary, please record what decisions you made in ./adr/yyyymmdd-hhmmss so you can proceed autonomously."

  function DigitChar(d: nat): (c: char)
    requires d < 10
    ensures '0' <= c <= '9' && DigitValue(c) == d
  {
    ('0' as int + d) as char
  }

  /** The value of one decimal digit. */
  function DigitValue(c: char): int {
    c as int - '0' as int
  }

  /** The number a string of decimal digits denotes, most significant digit
      first. */
  function DecValue(s: string): int
    decreases |s|
  {
    if s == [] then 0 else 10 * DecValue(s[..|s| - 1]) + DigitValue(s[|s| - 1])
  }

  /** The decimal rendering of a numeric id, most significant digit first
      and without leading zeros; it denotes the id itself. */
  function Decimal(n: nat): (r: string)
    ensures 1 <= |r|
    ensures forall i :: 0 <= i < |r| ==> '0' <= r[i] <= '9'
    ensures n < 10 <==> |r| == 1
    ensures DecValue(r) == n
    ensures r[0] == '0' ==> n == 0
    decreases n
  {
    if n < 10 then [DigitChar(n)]
    else
      var high := Decimal(n / 10);
      var r := high + [DigitChar(n % 10)];
      assert r[..|r| - 1] == high;
      r
  }

  /** Different ids are rendered differently. */
  lemma DecimalInjective(a: nat, b: nat)
    requires Decimal(a) == Decimal(b)
    ensures a == b
  {
  }
}
