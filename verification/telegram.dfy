/**
 * The parts of a Telegram update the handlers read, and the outward actions
 * they take in reply.
 */
module Telegram {
  import opened Optional
  import opened Domain

  datatype User = User(id: int, isBot: bool, firstName: string, lastName: string, userName: string)

  /** The chat a message arrived in, as Telegram describes it. */
  datatype ChatInfo = ChatInfo(id: int, chatType: string, title: string, firstName: string, lastName: string)

  /** The message being replied to. */
  datatype ReplyTo = ReplyTo(from: User, text: string)

  /** A bot command: its name without the slash, and the text after it. */
  datatype Command = Command(name: string, arguments: string)

  datatype Message = Message(
    chat: ChatInfo,
    from: User,
    text: string,
    command: Option<Command>,     // present iff `IsCommand()`
    replyTo: Option<ReplyTo>)

  /** Chat actions (typing indicators). */
  const ChatTyping: string := "typing"
  const ChatUploadPhoto: string := "upload_photo"

  /**
   * What the bot does in reply to one message. The three reports stand for
   * the formatted listings; their text layout is not modelled.
   */
  datatype Effect =
    | SendText(text: string)
    | SendPhoto(url: string)
    | SendAction(action: string)
    | DeleteMessage
    | ShowChatList(chats: seq<Chat>, chatCache: map<int, Time>)
    | ShowChat(chat: Chat)
    | ShowChatConfig(chat: Chat)
}
