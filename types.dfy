/**
 * The few bot API types the modelled code relies on. `Integer` is the API's
 * signed 64-bit integer; an `Update` carries only the identities the session
 * namespace is derived from.
 */
module Types {
  import opened Wrappers

  const MinInteger: int := -0x8000_0000_0000_0000
  const MaxInteger: int := 0x7fff_ffff_ffff_ffff

  predicate InIntegerRange(i: int) {
    MinInteger <= i <= MaxInteger
  }

  type Integer = i: int | InIntegerRange(i)

  /** A chat is named by its numeric identifier or by its public username. */
  datatype ChatId = Id(id: Integer) | Username(username: string)

  /** The populated part of an update: a message (whose sender may be absent), an inline query or a channel post. */
  datatype UpdateKind =
    | Message(chat: Integer, from: Option<Integer>)
    | InlineQuery(sender: Integer)
    | ChannelPost(chat: Integer)

  datatype Update = Update(id: Integer, kind: UpdateKind)

  /** The identifier of the chat the update belongs to, when it has one. */
  function ChatIdOf(u: Update): (r: Option<Integer>)
    ensures r.None? <==> u.kind.InlineQuery?
    ensures u.kind.Message? || u.kind.ChannelPost? ==> r == Some(u.kind.chat)
  {
    match u.kind
    case Message(chat, _) => Some(chat)
    case InlineQuery(_) => None
    case ChannelPost(chat) => Some(chat)
  }

  /** The identifier of the user who sent the update, when it has one. */
  function UserIdOf(u: Update): (r: Option<Integer>)
    ensures r.None? <==> u.kind.ChannelPost? || (u.kind.Message? && u.kind.from.None?)
    ensures u.kind.Message? ==> r == u.kind.from
    ensures u.kind.InlineQuery? ==> r == Some(u.kind.sender)
  {
    match u.kind
    case Message(_, from) => from
    case InlineQuery(sender) => Some(sender)
    case ChannelPost(_) => None
  }
}
