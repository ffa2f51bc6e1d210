/** How a cached chat is shown to callers: getChatType, extractMessageText and convertToDto. */
module ChatViews {
  import opened Wrappers
  import opened TdApi

  /**
    ChatResponseDto as the service fills it. `lastMessageDate` keeps Java's default 0 and
    `lastMessageText` stays null (`None`) when the chat has no last message.
   */
  datatype ChatResponse = ChatResponse(
    id: int,
    title: string,
    chatType: string,
    lastMessageDate: int,
    lastMessageText: Option<string>)

  /** The type name shown for a chat; each name identifies exactly one kind of chat. */
  function GetChatType(t: ChatType): (r: string)
    ensures r == "private" <==> t.ChatTypePrivate?
    ensures r == "group" <==> t.ChatTypeBasicGroup?
    ensures r == "channel" <==> t.ChatTypeSupergroup? && t.isChannel
    ensures r == "supergroup" <==> t.ChatTypeSupergroup? && !t.isChannel
    ensures r == "secret" <==> t.ChatTypeSecret?
    ensures r == "unknown" <==> t.ChatTypeAbsent?
  {
    match t
    case ChatTypePrivate(_) => "private"
    case ChatTypeBasicGroup(_) => "group"
    case ChatTypeSupergroup(_, isChannel) => if isChannel then "channel" else "supergroup"
    case ChatTypeSecret(_, _) => "secret"
    case ChatTypeAbsent => "unknown"
  }

  /** The text of a text message; every other kind of content shows as the empty string. */
  function ExtractMessageText(m: Message): (r: string)
    ensures m.content.MessageText? ==> r == m.content.text
    ensures !m.content.MessageText? ==> r == ""
  {
    match m.content
    case MessageText(text) => text
    case OtherContent => ""
  }

  /** The summary of a chat record returned to callers. */
  function ConvertToDto(c: Chat): (r: ChatResponse)
    ensures r.id == c.id && r.title == c.title && r.chatType == GetChatType(c.chatType)
    ensures c.lastMessage.None? ==> r.lastMessageDate == 0 && r.lastMessageText == None
    ensures c.lastMessage.Some? ==>
      r.lastMessageDate == c.lastMessage.value.date &&
      r.lastMessageText == Some(ExtractMessageText(c.lastMessage.value))
  {
    match c.lastMessage
    case None => ChatResponse(c.id, c.title, GetChatType(c.chatType), 0, None)
    case Some(m) => ChatResponse(c.id, c.title, GetChatType(c.chatType), m.date, Some(ExtractMessageText(m)))
  }

  /** The summary does not depend on a chat's positions: a position change never changes what callers see of a chat. */
  lemma ConvertToDtoIgnoresPositions(c: Chat, ps: seq<ChatPosition>)
    ensures ConvertToDto(c.(positions := ps)) == ConvertToDto(c)
  {
  }
}
