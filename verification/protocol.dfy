/** Vocabulary shared by the admin console and the widget: chat status and
    sender role as the server reports them, the message shape both
    components keep (content and sender only), and the socket events they
    emit. */
module Protocol {

  /** A value that may be missing (`null`/`undefined` in the source). */
  datatype Option<+T> = None | Some(value: T)

  /** `ChatStatus`; `Idle` is the client-side "not yet created" value. */
  datatype ChatStatus = Active | Closed | Idle

  /** `MessageSender`. */
  datatype Sender = User | Admin

  /** The message fields both components keep and compare. */
  datatype Message = Message(content: string, sender: Sender)

  /** Events emitted on the realtime channel. The widget may send before a
      chat id is known, so `SendMessage` carries an optional id. */
  datatype Emit =
    | JoinChat(room: string)
    | SendMessage(chatId: Option<string>, content: string, sender: Sender)
}
