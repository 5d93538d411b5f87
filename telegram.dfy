/**
  The part of the Telegram Bot API the update handler sees: updates from the
  update stream, the messages they carry, and the replies the bot sends back.
*/
module Telegram {
  type UserId = int
  type ChatId = int
  type MessageId = int

  /** Only text messages matter to the bot; every other kind is `NonText`. */
  datatype MessageKind = Text(data: string) | NonText

  datatype Message = Message(id: MessageId, from: UserId, chat: ChatId, kind: MessageKind)

  /** An update is either a new message or something else (edits, callbacks, ...). */
  datatype UpdateKind = NewMessage(message: Message) | OtherUpdate

  datatype Update = Update(id: int, kind: UpdateKind)

  /** A text message sent into `chat` as a reply to message `replyTo`. */
  datatype Reply = Reply(chat: ChatId, replyTo: MessageId, text: string)

  /** The reply `text` to `message`, in the chat the message came from. */
  function TextReply(message: Message, text: string): Reply
  {
    Reply(message.chat, message.id, text)
  }

  /** `update` is a text message; only these reach the authorization logic. */
  predicate IsTextMessage(update: Update)
  {
    update.kind.NewMessage? && update.kind.message.kind.Text?
  }

  /** `update` is a text message whose sender is `user`. */
  predicate SentText(update: Update, user: UserId)
  {
    IsTextMessage(update) && update.kind.message.from == user
  }
}
