/** The parts of the chat platform the handlers see: identifiers, users,
    messages, the three inbound events, and the feedback the bot sends back
    on messages. The transport is reduced to an append-only log of feedback
    actions: every transport call's result is discarded by the source, so
    each call is modelled as an entry that always lands in the log. */
module Discord {
  import opened Utils

  type ChannelId = nat
  type MessageId = nat
  type UserId = nat
  type GuildId = nat

  datatype User = User(id: UserId, bot: bool)

  /** A chat message; `guild` is absent for direct messages. */
  datatype Message = Message(
    id: MessageId,
    channel: ChannelId,
    guild: Option<GuildId>,
    author: User,
    content: string)
  {
    /** The identity of the message: its channel and its id. */
    function Origin(): OriginId { OriginId(channel, id) }
  }

  /** A message's identity; the key a script instance is stored under. */
  datatype OriginId = OriginId(channel: ChannelId, id: MessageId)

  /** An edit notification; `content` is absent when the edit did not touch
      the text. */
  datatype MessageUpdateEvent = MessageUpdateEvent(
    channel: ChannelId,
    id: MessageId,
    content: Option<string>)

  datatype Reaction = Reaction(
    channel: ChannelId,
    messageId: MessageId,
    userId: UserId,
    emoji: ReactionType)

  /** One transport call made on behalf of the bot, on the message it
      targets. */
  datatype Feedback =
    | React(target: OriginId, reaction: ReactionType)
    | Reply(target: OriginId, text: string)
    | DeleteReactions(target: OriginId)

  /** The handler context: the place transport calls go. */
  class Context {
    var log: seq<Feedback>

    constructor ()
      ensures log == []
    {
      log := [];
    }

    /** `Message::react`. */
    method React(target: OriginId, reaction: ReactionType)
      modifies this
      ensures log == old(log) + [Feedback.React(target, reaction)]
    {
      log := log + [Feedback.React(target, reaction)];
    }

    /** `Message::reply`. */
    method Reply(target: OriginId, text: string)
      modifies this
      ensures log == old(log) + [Feedback.Reply(target, text)]
    {
      log := log + [Feedback.Reply(target, text)];
    }

    /** `Message::delete_reactions`. */
    method DeleteReactions(target: OriginId)
      modifies this
      ensures log == old(log) + [Feedback.DeleteReactions(target)]
    {
      log := log + [Feedback.DeleteReactions(target)];
    }
  }
}
