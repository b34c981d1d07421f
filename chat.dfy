/** The records the chat component keeps: messages and chat sessions. */
module Chat {

  /** Who wrote a message: the person typing, or the advice service's reply. */
  datatype Sender = User | Bot

  /** One line of the transcript; `id` is the millisecond clock reading at creation. */
  datatype Message = Message(id: int, text: string, sender: Sender)

  /** A conversation; `id` is the clock reading when it was started. */
  datatype ChatSession = ChatSession(id: int, messages: seq<Message>)

  datatype Option<T> = None | Some(value: T)

  /** Only a session holding at least one message is ever moved into the history. */
  predicate IsArchivable(s: ChatSession) {
    |s.messages| > 0
  }
}
