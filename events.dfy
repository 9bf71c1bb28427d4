/**
  The records the hosted agent runtime streams back for one user message,
  as the repository's code inspects them. Python dicts are modelled as
  records whose optional fields say whether a key is present; a value that
  is not a mapping where the code tests `isinstance(x, dict)` gets its own
  constructor.
 */
module Events {
  import opened Basics

  /** What the client answers when nothing else is available. */
  const NoResponse := "No response received"

  /** A scalar JSON value, as a context's `distance` may hold. */
  datatype Scalar = Text(s: string) | Number(x: real) | Null

  /** One retrieval context inside a tool result. */
  datatype ContextValue =
    | ContextMap(text: Option<string>, sourceUri: Option<string>, distance: Option<Scalar>)
    | OtherContext  // not a mapping

  /** The `response` of a `function_response` part. */
  datatype Payload =
    | PayloadMap(contexts: Option<seq<ContextValue>>)
    | OtherPayload  // not a mapping

  datatype FunctionCall = FunctionCall(name: Option<string>)

  datatype FunctionResponse = FunctionResponse(name: Option<string>, response: Option<Payload>)

  /** A part of an event's content; each key may be present or not. */
  datatype Part = Part(
    text: Option<string>,
    functionCall: Option<FunctionCall>,
    functionResponse: Option<FunctionResponse>)

  /** An event's `content` mapping. */
  datatype Content = Content(role: Option<string>, parts: Option<seq<Part>>)

  /**
    A streamed event: a plain mapping (with its `content` and top-level
    `contexts` keys, each possibly absent), an SDK object whose `content`
    attribute is present and truthy or not, or anything else.
   */
  datatype Event =
    | MapEvent(content: Option<Content>, contexts: Option<seq<ContextValue>>)
    | ObjectEvent(attribute: Option<Content>)
    | OtherEvent

  /** A citation as the chat UI stores it with an assistant message. */
  datatype Citation = Citation(text: string, sourceUri: string, distance: Scalar)

  /** The parts of a mapping event whose content has the given role and a `parts` key. */
  function PartsWithRole(e: Event, role: string): seq<Part> {
    if e.MapEvent? && e.content.Some? && e.content.value.role == Some(role) && e.content.value.parts.Some?
    then e.content.value.parts.value
    else []
  }

  /** The parts of a mapping event with a `parts` key, whatever the role. */
  function AllParts(e: Event): seq<Part> {
    if e.MapEvent? && e.content.Some? && e.content.value.parts.Some?
    then e.content.value.parts.value
    else []
  }
}
