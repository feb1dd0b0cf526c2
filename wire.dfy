/** The payloads that travel over the socket between client and server. */
module Wire {
  import opened Wrappers

  /** A user as the client claims it: `{id, name, avatar}`; never checked. */
  datatype Identity = Identity(id: string, name: string, avatar: Option<string>)

  /** A chat message; `fileName` is `null` (None) when nothing is attached,
      `id` and `time` come from the sender's random token and clock. */
  datatype Message = Message(
    id: string,
    from: string,
    to: string,
    text: string,
    fileName: Option<string>,
    time: string)

  /** The `typing` payload `{from, isTyping}`. */
  datatype TypingSignal = TypingSignal(from: string, isTyping: bool)

}
