/**
 * The records the webhook handler works with: the inbound Telegram update, one
 * conversation turn, and the completion service's response. The model
 * assumes a 64-bit platform, where Go's `int` is 64 bits wide, and keeps
 * identifiers in that range.
 */
module Types {

  /** Go's `int`, on the 64-bit platform the model assumes. */
  type Int64 = x: int | -0x8000_0000_0000_0000 <= x < 0x8000_0000_0000_0000

  /** The `from` object of a Telegram message. */
  datatype Sender = Sender(id: Int64, firstName: string, lastName: string, userName: string)

  /** The `chat` object of a Telegram message; `kind` is the JSON field `type`. */
  datatype Chat = Chat(id: Int64, kind: string, title: string)

  /** The `message` object of an update. A missing `text` decodes to "". */
  datatype TelegramMessage = TelegramMessage(messageId: Int64, sender: Sender, chat: Chat, text: string)

  /** One inbound webhook notification. */
  datatype Update = Update(updateId: Int64, message: TelegramMessage)

  /** One conversation turn, as stored in the history and sent to the completion service. */
  datatype Message = Message(role: string, content: string)

  /** One candidate reply of the completion service. */
  datatype Choice = Choice(message: Message)

  /** The completion service's response; `choices` may be empty. */
  datatype CompletionResponse = CompletionResponse(id: string, choices: seq<Choice>)
}
