/**
  The TDLib value types the chat service reads: chats, their positions in chat lists,
  messages, inbound updates and the responses to the two requests the service sends.
  Only the fields the service touches are kept. TDLib's 64-bit `long` ids, orders and
  dates are plain integers here: the service only compares and copies them.
 */
module TdApi {
  import opened Wrappers

  /** TdApi.ChatList: the main list, the archive, or a user folder. */
  datatype ChatList = ChatListMain | ChatListArchive | ChatListFolder(chatFolderId: int)

  /** TdApi.ChatPosition: where a chat stands in one list; order 0 means "not in that list". */
  datatype ChatPosition = ChatPosition(list: ChatList, order: int, isPinned: bool)

  /** TdApi.ChatType; `ChatTypeAbsent` stands for a missing (null) type. */
  datatype ChatType =
    | ChatTypePrivate(userId: int)
    | ChatTypeBasicGroup(basicGroupId: int)
    | ChatTypeSupergroup(supergroupId: int, isChannel: bool)
    | ChatTypeSecret(secretChatId: int, secretUserId: int)
    | ChatTypeAbsent

  /** TdApi.MessageContent: text, or any other kind of content. */
  datatype MessageContent = MessageText(text: string) | OtherContent

  datatype Message = Message(id: int, chatId: int, date: int, content: MessageContent)

  /** TdApi.Chat: the mutable chat record the service caches. */
  datatype Chat = Chat(
    id: int,
    chatType: ChatType,
    title: string,
    lastMessage: Option<Message>,
    positions: seq<ChatPosition>)

  /** The inbound updates the service reacts to; every other update is `OtherUpdate`. */
  datatype Update =
    | UpdateNewChat(chat: Chat)
    | UpdateChatTitle(chatId: int, title: string)
    | UpdateChatLastMessage(chatId: int, lastMessage: Option<Message>, positions: seq<ChatPosition>)
    | UpdateChatPosition(chatId: int, position: ChatPosition)
    | OtherUpdate

  /** Answer to a LoadChats request. */
  datatype LoadChatsResponse = LoadChatsOk | LoadChatsError(code: int, message: string) | LoadChatsOther

  /** Answer to a GetChat request. */
  datatype GetChatResponse = GetChatFound(chat: Chat) | GetChatError(code: int, message: string) | GetChatOther
}
