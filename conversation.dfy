/**
  One exchange of either chat front end (deployment/st_app.py and
  deployment/streamlit_app.py): the user's message is appended, the agent is
  queried with the stored session id, and only a successful query replaces
  the session id and appends the assistant's reply, built by the event
  reducer from the query result.
 */
module Conversation {
  import opened Basics
  import opened Events
  import opened EventReducer
  import opened AgentClient
  import GitHubTools

  const ResourceVar := "AGENT_RESOURCE_NAME"
  const ResourceMissing := "AGENT_RESOURCE_NAME not set"

  /** A history entry. */
  datatype Message =
    | UserMessage(content: string)
    | AssistantMessage(content: string, citations: seq<Citation>)

  /** What a send depends on beyond the UI state: the environment, the deployed agent and `str()`. */
  datatype Backend = Backend(env: Env, runtime: Runtime, show: Content -> string)

  /** The history and session a front end keeps. */
  datatype Turn = Turn(messages: seq<Message>, sessionId: Option<string>)

  /** The query of one exchange: with no resource name the front end stops before querying. */
  function Ask(b: Backend, prompt: string, sessionId: Option<string>): (r: Result<QueryResult, string>)
    ensures !Truthy(Lookup(b.env, ResourceVar)) ==> r == Failure(ResourceMissing)
    ensures r.Success? ==> r.value.response != ""
  {
    if !Truthy(Lookup(b.env, ResourceVar)) then Failure(ResourceMissing)
    else Query(b.env, b.runtime, prompt, DefaultUserId, sessionId, b.show)
  }

  /** The assistant message built from a query result: the reduced answer and the citations. */
  function Reply(r: QueryResult): (m: Message)
    ensures m.AssistantMessage?
    ensures r.response != "" ==> m.content != ""
  {
    AssistantMessage(Answer(r.events, Some(r.response)), CitationsOf(r.events))
  }

  /**
    The history and session after sending a non-empty prompt: the history
    is only extended, the user's message first; a failed query changes
    nothing else.
   */
  function Exchange(t: Turn, prompt: string, b: Backend): (t': Turn)
    ensures |t'.messages| > |t.messages| && t'.messages[..|t.messages|] == t.messages
    ensures t'.messages[|t.messages|] == UserMessage(prompt)
    ensures Ask(b, prompt, t.sessionId).Failure? ==> t' == Turn(t.messages + [UserMessage(prompt)], t.sessionId)
  {
    match Ask(b, prompt, t.sessionId)
    case Success(r) => Turn(t.messages + [UserMessage(prompt), Reply(r)], Some(r.sessionId))
    case Failure(_) => Turn(t.messages + [UserMessage(prompt)], t.sessionId)
  }

  // ---------------------------------------------------------------------
  // Properties
  // ---------------------------------------------------------------------

  /**
    The history only grows: the user's message comes first, then, on
    success only, one non-empty assistant message; the session id changes
    only on success, to the one the query used.
   */
  lemma ExchangeAppends(t: Turn, prompt: string, b: Backend)
    ensures var t' := Exchange(t, prompt, b);
            var out := Ask(b, prompt, t.sessionId);
            |t'.messages| == |t.messages| + (if out.Success? then 2 else 1)
            && t'.messages[..|t.messages|] == t.messages
            && t'.messages[|t.messages|] == UserMessage(prompt)
            && (out.Success? ==> t'.messages[|t.messages| + 1].AssistantMessage?
                                 && t'.messages[|t.messages| + 1].content != ""
                                 && t'.sessionId == Some(out.value.sessionId))
            && (out.Failure? ==> t'.sessionId == t.sessionId)
  {
    var t' := Exchange(t, prompt, b);
    var out := Ask(b, prompt, t.sessionId);
    if out.Success? {
      assert t'.messages == t.messages + [UserMessage(prompt), Reply(out.value)];
    }
  }

  /** A conversation that has a truthy session id keeps it across a successful exchange. */
  lemma ExchangeKeepsSession(t: Turn, prompt: string, b: Backend)
    requires Truthy(t.sessionId) && Ask(b, prompt, t.sessionId).Success?
    ensures Exchange(t, prompt, b).sessionId == t.sessionId
  {
  }

  /**
    A stream that ends without events and without raising leaves the UI
    nothing to reduce: the reply is the client's own fallback text, with no
    citations.
   */
  lemma EmptyStreamNoResponse(b: Backend, prompt: string, sessionId: Option<string>, r: QueryResult)
    requires Ask(b, prompt, sessionId) == Success(r)
    requires b.runtime.streamQuery(DefaultUserId, r.sessionId, prompt) == Stream([], None)
    ensures Reply(r) == AssistantMessage(NoResponse, [])
  {
    assert r.events == [];
    assert r.response == NoResponse;
  }

  // ---------------------------------------------------------------------
  // What the UI cites from the agent's own retrieval tool
  // ---------------------------------------------------------------------

  function DistanceValue(d: Option<real>): Scalar {
    if d.Some? then Number(d.value) else Null
  }

  /** A retrieval context as it reaches the UI: a mapping with `text` and `distance`, and no `source_uri`. */
  function RagContextValue(c: GitHubTools.RagContext): ContextValue {
    ContextMap(Some(c.text), None, Some(DistanceValue(c.distance)))
  }

  function RagContextValues(cs: seq<GitHubTools.RagContext>): seq<ContextValue> {
    seq(|cs|, i requires 0 <= i < |cs| => RagContextValue(cs[i]))
  }

  /** The dict `rag_retrieval` returns, as the `response` of its function-response part. */
  function RagPayload(reply: GitHubTools.RagReply): Payload {
    match reply
    case RagSuccess(contexts, _) => PayloadMap(Some(RagContextValues(contexts)))
    case RagError(_) => PayloadMap(None)
  }

  /** The user-role event that carries the retrieval tool's result back to the agent. */
  function RagResultEvent(reply: GitHubTools.RagReply): Event {
    var fr := FunctionResponse(Some("rag_retrieval"), Some(RagPayload(reply)));
    MapEvent(Some(Content(Some("user"), Some([Part(None, None, Some(fr))]))), None)
  }

  /**
    The UI cites exactly the contexts of a successful retrieval, and nothing
    for a failed one, whose dict has no `contexts` key.
   */
  lemma RagEventCitations(reply: GitHubTools.RagReply)
    ensures reply.RagSuccess? ==>
              CitationsOf([RagResultEvent(reply)]) == FlatMap(RagContextValues(reply.contexts), ContextCitation)
    ensures reply.RagError? ==> CitationsOf([RagResultEvent(reply)]) == []
  {
    var e := RagResultEvent(reply);
    var p := PartsWithRole(e, "user")[0];
    assert PartsWithRole(e, "user") == [p];
    FlatMapSingleton(p, PartCitations);
    FlatMapSingleton(e, EventCitations);
    if reply.RagError? {
      assert ResponseContexts(p) == [];
    } else {
      assert ResponseContexts(p) == RagContextValues(reply.contexts);
    }
  }

  /**
    Every passage the retrieval tool returns becomes one citation, in order,
    with its text cut to 200 characters and, since the tool emits no
    `source_uri`, the default source.
   */
  lemma {:induction false} RagCitations(cs: seq<GitHubTools.RagContext>)
    ensures var cites := FlatMap(RagContextValues(cs), ContextCitation);
            |cites| == |cs|
            && forall i :: 0 <= i < |cs| ==>
                 cites[i] == Citation(Take(cs[i].text, CitationTextLimit), DefaultSource, DistanceValue(cs[i].distance))
    decreases |cs|
  {
    if cs != [] {
      var n := |cs| - 1;
      RagCitations(cs[..n]);
      assert RagContextValues(cs)[..n] == RagContextValues(cs[..n]);
    }
  }

  /** The client's own citation list never holds a passage of the retrieval tool: it has no `source_uri`. */
  lemma RagContextsNotClientCited(cs: seq<GitHubTools.RagContext>)
    ensures FlatMap(RagContextValues(cs), ContextClientCitation) == []
  {
    FlatMapNone(RagContextValues(cs), ContextClientCitation);
  }
}
