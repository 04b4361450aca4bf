/** The chat message record of the component: a role, the content and the
    `Date.now()` reading taken when the message was made. */
module Messages {
  import opened JsValues

  datatype Role = User | Assistant

  /** The role's literal string, as it is stored and written to the transcript. */
  function RoleName(role: Role): (name: string)
    ensures name == "user" <==> role == User
    ensures name == "assistant" <==> role == Assistant
  {
    match role
    case User => "user"
    case Assistant => "assistant"
  }

  /** `content` is declared a string, but the assistant message stores whatever
      the provider put under `message.content`, so it is kept as a value. */
  datatype Message = Message(role: Role, content: Value, timestamp: int)
}
