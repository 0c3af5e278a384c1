/** The parts of a Bot API `getUpdates` answer the bot reads (internal/telegram/types.go). */
module TelegramTypes {
  import opened Common

  datatype User = User(id: int, firstName: string, lastName: string, username: string)

  datatype Chat = Chat(
    id: int,
    chatType: string,
    title: string,
    username: string,
    firstName: string,
    lastName: string)

  datatype Message = Message(messageId: int, date: int, text: string, from: Option<User>, chat: Chat)

  /** One update; `message` is absent for updates that carry something else. */
  datatype Update = Update(updateId: int, message: Option<Message>)
}
