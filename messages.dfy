/**
 * Built chat messages: immutable values carrying a flag set, produced either
 * by the message builder from protocol content or directly as synthetic
 * system and timeout notices.
 */
module Messages {
  import opened Irc

  datatype MessageFlag =
    | System
    | Timeout
    | Highlighted
    | Disabled
    | Collapsed
    | Subscription
    | Whisper
    | DoNotTriggerNotification
    | DoNotLog

  /** Per-message building options, constructed fresh for every message. */
  datatype ParseArgs = ParseArgs(
    trimSubscriberUsername: bool,
    isStaffOrBroadcaster: bool,
    isReceivedWhisper: bool)

  const DefaultParseArgs := ParseArgs(false, false, false)

  /** Everything the message builder is constructed from. */
  datatype BuildInput = BuildInput(
    channel: string,
    source: IrcMessage,
    args: ParseArgs,
    content: string,
    isAction: bool)

  datatype MessageKind =
    | Chat(input: BuildInput)
    | SystemText(text: string)
    | TimeoutNotice(user: string, duration: string, reason: string, multipleTimes: bool)

  /** `id` is the server-assigned message id that CLEARMSG refers to ("" if none). */
  datatype Message = Message(kind: MessageKind, flags: set<MessageFlag>, id: string)

  /** A synthetic, locally generated notice. */
  function SystemMessage(text: string): Message
  {
    Message(SystemText(text), {System}, "")
  }

  /** The notice shown when a user is timed out or banned. */
  function TimeoutMessage(user: string, duration: string, reason: string, multipleTimes: bool): Message
  {
    Message(TimeoutNotice(user, duration, reason, multipleTimes), {System, Timeout}, "")
  }

  /**
   * The message builder's two policy decisions, which depend on ignore lists
   * and highlight rules that live outside this model.
   */
  datatype Builder = Builder(
    isIgnored: BuildInput -> bool,
    isHighlighted: BuildInput -> bool)

  /**
   * Builds a chat message whose flags start as `preset`. A highlight match
   * sets `Highlighted`, except on a subscription message, where it stays clear.
   */
  function Build(b: Builder, input: BuildInput, preset: set<MessageFlag>): (m: Message)
    ensures m.kind == Chat(input)
    ensures m.flags - {Highlighted} == preset - {Highlighted}
    ensures Highlighted in m.flags <==> b.isHighlighted(input) && Subscription !in preset
    ensures m.id == TagOr(input.source, "id", "")
  {
    var highlight := if b.isHighlighted(input) && Subscription !in preset then {Highlighted} else {};
    Message(Chat(input), (preset - {Highlighted}) + highlight, TagOr(input.source, "id", ""))
  }
}
