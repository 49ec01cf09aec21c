/**
 * The values of the chat platform that the ticket handlers read and write:
 * users and members, permission overwrites, buttons, messages and channels,
 * and the history fetch. Identifiers (snowflakes) are strings.
 */
module Platform {
  import opened Wrappers
  import opened Builtins

  datatype User = User(id: string, tag: string, bot: bool)

  /** A user as a member of the guild, with the ids of the roles they hold. */
  datatype Member = Member(user: User, roles: set<string>)

  datatype Permission = ViewChannel | SendMessages | AttachFiles

  /**
   * One permission overwrite of a channel. The subject is optional because
   * the claim handler can build an overwrite whose `id` is `undefined`.
   */
  datatype Overwrite = Overwrite(id: Option<string>, allow: set<Permission>, deny: set<Permission>)

  datatype ButtonStyle = Primary | Danger

  datatype Button = Button(customId: string, caption: string, style: ButtonStyle, disabled: bool)

  /** The summary the transcript log carries: user, category, channel name and channel id. */
  datatype Summary = Summary(userId: string, userTag: string, category: string, channelName: string, channelId: string)

  /**
   * A message: its author, text, the rendered creation time, its rows of
   * buttons, and (for transcript log entries) the summary and the attached
   * transcript text.
   */
  datatype Message = Message(
    author: User,
    content: string,
    createdAt: string,
    components: seq<seq<Button>>,
    summary: Option<Summary>,
    file: Option<string>)

  /** A text channel: name, topic (empty for none), parent category, overwrites and history, oldest first. */
  datatype Channel = Channel(
    name: string,
    topic: string,
    parent: Option<string>,
    overwrites: seq<Overwrite>,
    messages: seq<Message>)

  /** The last `limit` entries of a history, oldest first. */
  function Latest<T>(history: seq<T>, limit: nat): (r: seq<T>)
    ensures |r| == if |history| <= limit then |history| else limit
    ensures r == history[|history| - |r|..]
  {
    if |history| <= limit then history else history[|history| - limit..]
  }

  /** `messages.fetch({ limit })`: the most recent `limit` messages, newest first. */
  function Recent(history: seq<Message>, limit: nat): (r: seq<Message>)
    ensures |r| == |Latest(history, limit)| && |r| <= limit
    ensures forall i :: 0 <= i < |r| ==> r[i] == history[|history| - 1 - i]
  {
    Reverse(Latest(history, limit))
  }
}
