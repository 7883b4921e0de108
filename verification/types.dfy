/** The records exchanged by the chat server and its browser client
    (backend/src/types.ts, mirrored by frontend/src/types.ts). */
module Types {

  datatype Option<T> = None | Some(value: T)

  /** A call that either produced a value or failed with an error message
      (a thrown `Error` and its `message`). */
  datatype Outcome<T> = Ok(value: T) | Err(msg: string)

  /** Who wrote a message. */
  datatype Author = User | Gpt | Claude

  /** The role a provider sees. */
  datatype Role = UserRole | AssistantRole

  /** One entry of the shared conversation log. */
  datatype Msg = Msg(id: string, author: Author, role: Role, content: string, ts: int)

  /** One turn as it is handed to a provider. */
  datatype Turn = Turn(role: Role, content: string)

  /** One entry of the reply list of a send. */
  datatype Reply = Reply(id: string, author: Author, content: string, ts: int)

  /** The body of a send request, as far as the server reads it: a missing
      `content` is `None`, a `tags` value that is not an array is `None`. */
  datatype SendRequest = SendRequest(content: Option<string>, tags: Option<seq<string>>)

  /** The body of a successful send response. */
  datatype SendResponse = SendResponse(ok: bool, userMessageId: string, replies: seq<Reply>)

  /** What the server answers to a send: a 400 with an error text, or a response body. */
  datatype SendResult = BadRequest(error: string) | Sent(response: SendResponse)

  /** The assistant entry of the log that carries a reply (the server stores
      it, the client appends it when it merges a response). */
  function AssistantMsg(r: Reply): (m: Msg)
    ensures m.role == AssistantRole
    ensures Reply(m.id, m.author, m.content, m.ts) == r
  {
    Msg(r.id, r.author, AssistantRole, r.content, r.ts)
  }
}
