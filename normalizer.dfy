/** The response normalizer of the send path: turns whatever the provider's
    `chat` call resolved to into the content of the assistant message. */
module ResponseNormalizer {
  import opened Options
  import opened JsValues

  const UnexpectedFormat := "Unexpected response format"

  /** What `JSON.stringify` does with a value: returns text, returns
      `undefined` (for instance when the object's `toJSON` method returns
      undefined), or throws (a cycle, a bigint, a throwing `toJSON`). */
  datatype Serialized = Json(text: string) | NoJson | Thrown

  /** The content for `response`, or `None` when `JSON.stringify` (given as
      `stringify`) was reached and threw. */
  function Normalize(response: Value, stringify: Value -> Serialized): (r: Option<Value>)
    ensures r.None? ==> response.Object? && stringify(response).Thrown?
    ensures r.Some? && !r.value.Str? && !Truthy(r.value) ==>
      r.value == Undefined && response.Object? && stringify(response).NoJson?
  {
    if Truthy(response) && TypeOf(response) == "object" then
      var content := GetOptional(Get(response, "message"), "content");
      if Truthy(content) then
        Some(content)
      else
        match stringify(response)
        case Json(json) => Some(Str(json))
        case NoJson => Some(Undefined)
        case Thrown => None
    else if TypeOf(response) == "string" then
      Some(response)
    else
      Some(Str(UnexpectedFormat))
  }

  /** The reply carries text under `message.content`. */
  predicate HasMessageContent(response: Value)
  {
    response.Object? && "message" in response.props
    && response.props["message"].Object? && "content" in response.props["message"].props
    && Truthy(response.props["message"].props["content"])
  }

  /** A string reply is the content as it is, the empty string included. */
  lemma NormalizeString(s: string, stringify: Value -> Serialized)
    ensures Normalize(Str(s), stringify) == Some(Str(s))
  {
  }

  /** An object whose `message.content` is truthy yields that content. */
  lemma NormalizeMessageContent(response: Value, stringify: Value -> Serialized)
    requires HasMessageContent(response)
    ensures Normalize(response, stringify) == Some(response.props["message"].props["content"])
  {
  }

  /** Every other object, including one whose `message.content` is the empty
      string or whose `message` is missing or null, is serialized whole; a
      serialization that yields `undefined` makes the content `undefined`, and
      one that throws is the only way normalization fails. */
  lemma NormalizeOtherObject(response: Value, stringify: Value -> Serialized)
    requires response.Object? && !HasMessageContent(response)
    ensures Normalize(response, stringify) ==
      match stringify(response)
      case Json(json) => Some(Str(json))
      case NoJson => Some(Undefined)
      case Thrown => None
  {
  }

  /** Anything that is neither a string nor an object (undefined, null, a
      boolean, a number, a bigint, a symbol, a function) gets the fixed text. */
  lemma NormalizeUnexpected(response: Value, stringify: Value -> Serialized)
    requires !response.Str? && !response.Object?
    ensures Normalize(response, stringify) == Some(Str(UnexpectedFormat))
  {
  }

  /** The four cases cover every value, and only serialization can fail. */
  lemma NormalizeFailsOnlyOnSerialization(response: Value, stringify: Value -> Serialized)
    ensures Normalize(response, stringify).None? <==>
      response.Object? && !HasMessageContent(response) && stringify(response).Thrown?
  {
  }
}
