/** The per-user conversation state the backend keeps between turns. */
module Sessions {
  import opened Wrappers

  datatype Role = System | User | Assistant

  /** One entry of the history sent to the language model. */
  datatype Message = Message(role: Role, content: string)

  /** A user's history and the sequence most recently produced for that user (`None` until one is). */
  datatype Session = Session(messages: seq<Message>, lastSequence: Option<string>)

  /** The session a user gets on a first message: the system instructions alone, no sequence yet. */
  function NewSession(seed: string): Session {
    Session([Message(System, seed)], None)
  }
}
