/**
  The client of the deployed agent (deployment/agent_client.py): it checks
  the Vertex AI configuration, opens a session when none is given, drains
  the event stream into a buffer, concatenates the string form of every
  event's content, and collects the top-level contexts that name a source.
  The agent runtime and Python's `str()` of a content value are parameters.
 */
module AgentClient {
  import opened Basics
  import opened Events

  const ProjectVar := "GOOGLE_CLOUD_PROJECT"
  const LocationVar := "GOOGLE_CLOUD_LOCATION"
  const DefaultLocation := "us-central1"
  const ProjectRequired := "GOOGLE_CLOUD_PROJECT environment variable is required"
  const DefaultUserId := "streamlit_user"
  const ErrorPrefix := "Error querying agent: "
  const ClientTextLimit := 200

  datatype VertexConfig = VertexConfig(project: string, location: string)

  /** `init_vertexai`: the project is required, the location has a default. */
  function InitVertexAI(env: Env): (r: Result<VertexConfig, string>)
    ensures r.Failure? <==> !Truthy(Lookup(env, ProjectVar))
    ensures r.Failure? ==> r.error == ProjectRequired
    ensures r.Success? ==> r.value.project == env[ProjectVar]
    ensures r.Success? && LocationVar !in env ==> r.value.location == DefaultLocation
    ensures r.Success? && LocationVar in env ==> r.value.location == env[LocationVar]
  {
    var project := Lookup(env, ProjectVar);
    var location := Lookup(env, LocationVar).GetOr(DefaultLocation);
    if !Truthy(project) then Failure(ProjectRequired)
    else Success(VertexConfig(project.value, location))
  }

  /** What `create_session` returns: a mapping with `id` and `name` keys, either possibly absent. */
  datatype Session = Session(id: Option<string>, name: Option<string>)

  /** `s.split("/")[-1]`: what follows the last slash, or all of `s` when it has none. */
  function LastSegment(s: string): (seg: string)
    ensures '/' !in seg
    ensures |seg| <= |s| && seg == s[|s| - |seg|..]
    ensures |seg| < |s| ==> s[|s| - |seg| - 1] == '/'
  {
    if s == [] then []
    else if s[|s| - 1] == '/' then []
    else
      var prefix := s[..|s| - 1];
      var seg := LastSegment(prefix) + [s[|s| - 1]];
      assert s == prefix + [s[|s| - 1]];
      seg
  }

  /** The segment after the final slash of a resource name is its last component. */
  lemma {:induction false} LastSegmentOfPath(dir: string, leaf: string)
    requires '/' !in leaf
    ensures LastSegment(dir + "/" + leaf) == leaf
    decreases |leaf|
  {
    var s := dir + "/" + leaf;
    if leaf == [] {
      assert s[|s| - 1] == '/';
    } else {
      var n := |leaf| - 1;
      assert leaf[n] in leaf;
      assert s[..|s| - 1] == dir + "/" + leaf[..n];
      assert '/' !in leaf[..n] by {
        forall c | c in leaf[..n] ensures c != '/' { assert c in leaf; }
      }
      LastSegmentOfPath(dir, leaf[..n]);
      assert leaf[..n] + [leaf[n]] == leaf;
    }
  }

  /** The session id: the session's `id` when it is truthy, else the last segment of its `name`. */
  function SessionIdOf(session: Session): (sid: string)
    ensures Truthy(session.id) ==> sid == session.id.value
    ensures !Truthy(session.id) ==> '/' !in sid
    ensures !Truthy(session.id) && session.name.None? ==> sid == ""
    ensures !Truthy(session.id) && session.name.Some? ==>
              var name := session.name.value;
              |sid| <= |name| && sid == name[|name| - |sid|..]
              && (|sid| < |name| ==> name[|name| - |sid| - 1] == '/')
  {
    if Truthy(session.id) then session.id.value else LastSegment(session.name.GetOr(""))
  }

  /** The end of a stream: the events delivered before it ended and, if it ended by raising, the error's text. */
  datatype Stream = Stream(events: seq<Event>, failure: Option<string>)

  /** The deployed agent, as the client sees it. */
  datatype Runtime = Runtime(
    createSession: string -> Result<Session, string>,   // by user id; Failure when it raises
    streamQuery: (string, string, string) -> Stream)      // user id, session id, message

  /** A citation as the client returns it. */
  datatype ClientCitation = ClientCitation(sourceUri: string, text: string)

  /** The dict `query_agent` returns. */
  datatype QueryResult = QueryResult(response: string, citations: seq<ClientCitation>, events: seq<Event>, sessionId: string)

  /** The string an event adds to the response: `str()` of its content, when it has one. */
  function ContentString(e: Event, show: Content -> string): string {
    match e
    case ObjectEvent(attribute) => if attribute.Some? then show(attribute.value) else ""
    case MapEvent(content, _) => if content.Some? then show(content.value) else ""
    case OtherEvent => ""
  }

  /** The concatenated content strings of the stream, in order. */
  function StreamText(events: seq<Event>, show: Content -> string): string {
    FlatMap(events, e => ContentString(e, show))
  }

  /** A top-level context is cited only when it carries a `source_uri`. */
  function ContextClientCitation(c: ContextValue): seq<ClientCitation> {
    if c.ContextMap? && c.sourceUri.Some?
    then [ClientCitation(c.sourceUri.value, Take(c.text.GetOr(""), ClientTextLimit))]
    else []
  }

  function EventClientCitations(e: Event): seq<ClientCitation> {
    if e.MapEvent? && e.contexts.Some? then FlatMap(e.contexts.value, ContextClientCitation) else []
  }

  /** All client citations of the stream, in order. */
  function ClientCitations(events: seq<Event>): seq<ClientCitation> {
    FlatMap(events, EventClientCitations)
  }

  /** The session the query runs in: the given one when truthy, else a new one. */
  function ResolveSession(runtime: Runtime, userId: string, sessionId: Option<string>): Result<string, string> {
    if Truthy(sessionId) then Success(sessionId.value)
    else match runtime.createSession(userId)
      case Success(session) => Success(SessionIdOf(session))
      case Failure(e) => Failure(e)
  }

  /** The response text: the error text when the stream raised, else the concatenation, never empty. */
  function ResponseOf(stream: Stream, show: Content -> string): (response: string)
    ensures response != ""
    ensures stream.failure.Some? ==> response == ErrorPrefix + stream.failure.value
    ensures stream.failure.None? && StreamText(stream.events, show) != "" ==> response == StreamText(stream.events, show)
    ensures stream.failure.None? && StreamText(stream.events, show) == "" ==> response == NoResponse
  {
    var text := if stream.failure.Some? then ErrorPrefix + stream.failure.value else StreamText(stream.events, show);
    if text != "" then text else NoResponse
  }

  /**
    `query_agent` as a function of its inputs: configuration errors and a
    failing session creation propagate (Failure); a failing stream is
    recovered into the response text.
   */
  function Query(env: Env, runtime: Runtime, message: string, userId: string, sessionId: Option<string>,
                 show: Content -> string): (r: Result<QueryResult, string>)
    ensures InitVertexAI(env).Failure? ==> r == Failure(ProjectRequired)
    ensures r.Success? ==> r.value.response != ""
    ensures r.Success? && Truthy(sessionId) ==> r.value.sessionId == sessionId.value
    ensures r.Success? ==> r.value.events == runtime.streamQuery(userId, r.value.sessionId, message).events
  {
    match InitVertexAI(env)
    case Failure(e) => Failure(e)
    case Success(_) =>
      match ResolveSession(runtime, userId, sessionId)
      case Failure(e) => Failure(e)
      case Success(sid) =>
        var stream := runtime.streamQuery(userId, sid, message);
        Success(QueryResult(ResponseOf(stream, show), ClientCitations(stream.events), stream.events, sid))
  }

  /** The streaming loop of `query_agent`. */
  method QueryAgent(env: Env, runtime: Runtime, message: string, userId: string, sessionId: Option<string>,
                    show: Content -> string) returns (r: Result<QueryResult, string>)
    ensures r == Query(env, runtime, message, userId, sessionId, show)
  {
    var config := InitVertexAI(env);
    if config.Failure? {
      return Failure(config.error);
    }
    var sid: string;
    if Truthy(sessionId) {
      sid := sessionId.value;
    } else {
      var created := runtime.createSession(userId);
      if created.Failure? {
        return Failure(created.error);
      }
      sid := SessionIdOf(created.value);
    }
    var stream := runtime.streamQuery(userId, sid, message);
    var events, responseText, citations := ConsumeStream(stream.events, show);
    if stream.failure.Some? {
      responseText := ErrorPrefix + stream.failure.value;
    }
    r := Success(QueryResult(if responseText != "" then responseText else NoResponse, citations, events, sid));
  }

  /** The `for event in remote_app.stream_query(...)` loop: it records, concatenates and collects. */
  method ConsumeStream(stream: seq<Event>, show: Content -> string)
    returns (events: seq<Event>, responseText: string, citations: seq<ClientCitation>)
    ensures events == stream
    ensures responseText == StreamText(stream, show)
    ensures citations == ClientCitations(stream)
  {
    events, responseText, citations := [], "", [];
    var i := 0;
    while i < |stream|
      invariant 0 <= i <= |stream|
      invariant events == stream[..i]
      invariant responseText == StreamText(stream[..i], show)
      invariant citations == ClientCitations(stream[..i])
    {
      var e := stream[i];
      events := events + [e];
      if e.ObjectEvent? && e.attribute.Some? {
        responseText := responseText + show(e.attribute.value);
      } else if e.MapEvent? {
        if e.content.Some? {
          responseText := responseText + show(e.content.value);
        }
        if e.contexts.Some? {
          citations := CollectSourced(e.contexts.value, citations);
        }
      }
      FlatMapSnoc(stream, i, x => ContentString(x, show));
      FlatMapSnoc(stream, i, EventClientCitations);
      i := i + 1;
    }
    assert stream[..|stream|] == stream;
  }

  /** The loop over an event's top-level contexts. */
  method CollectSourced(contexts: seq<ContextValue>, citations0: seq<ClientCitation>) returns (citations: seq<ClientCitation>)
    ensures citations == citations0 + FlatMap(contexts, ContextClientCitation)
  {
    citations := citations0;
    var k := 0;
    while k < |contexts|
      invariant 0 <= k <= |contexts|
      invariant citations == citations0 + FlatMap(contexts[..k], ContextClientCitation)
    {
      var ctx := contexts[k];
      if ctx.ContextMap? && ctx.sourceUri.Some? {
        citations := citations + [ClientCitation(ctx.sourceUri.value, Take(ctx.text.GetOr(""), ClientTextLimit))];
      }
      FlatMapSnoc(contexts, k, ContextClientCitation);
      k := k + 1;
    }
    assert contexts[..|contexts|] == contexts;
  }

  // ---------------------------------------------------------------------
  // Properties
  // ---------------------------------------------------------------------

  /** Unlike the UI's reducer, the client keeps every content string: the text of a longer stream extends that of its prefix. */
  lemma {:induction false} StreamTextAppend(earlier: seq<Event>, later: seq<Event>, show: Content -> string)
    ensures StreamText(earlier + later, show) == StreamText(earlier, show) + StreamText(later, show)
  {
    FlatMapAppend(earlier, later, e => ContentString(e, show));
  }

  /** A session is created only when none is supplied: with one, what `create_session` would do is irrelevant. */
  lemma SuppliedSessionIsReused(env: Env, a: Runtime, b: Runtime, message: string, userId: string,
                                sessionId: Option<string>, show: Content -> string)
    requires Truthy(sessionId) && a.streamQuery == b.streamQuery
    ensures Query(env, a, message, userId, sessionId, show) == Query(env, b, message, userId, sessionId, show)
  {
  }

  /** A stream that raises keeps what was delivered: the events, and the citations they carry. */
  lemma FailureKeepsCollected(env: Env, runtime: Runtime, message: string, userId: string,
                              sessionId: Option<string>, show: Content -> string)
    requires Query(env, runtime, message, userId, sessionId, show).Success?
    ensures var r := Query(env, runtime, message, userId, sessionId, show).value;
            var stream := runtime.streamQuery(userId, r.sessionId, message);
            r.events == stream.events
            && r.citations == ClientCitations(stream.events)
            && (stream.failure.Some? ==> r.response == ErrorPrefix + stream.failure.value)
  {
  }

  /** Client citations come only from contexts that name a source, and their text is cut to the limit. */
  lemma ClientCitationsSourced(events: seq<Event>)
    ensures forall c :: c in ClientCitations(events) ==> |c.text| <= ClientTextLimit
    ensures forall c :: c in ClientCitations(events) ==>
              exists e, ctx :: e in events && e.MapEvent? && e.contexts.Some? && ctx in e.contexts.value
                               && ctx.ContextMap? && ctx.sourceUri == Some(c.sourceUri)
  {
    forall c | c in ClientCitations(events)
      ensures |c.text| <= ClientTextLimit
      ensures exists e, ctx :: e in events && e.MapEvent? && e.contexts.Some? && ctx in e.contexts.value
                               && ctx.ContextMap? && ctx.sourceUri == Some(c.sourceUri)
    {
      FlatMapMember(events, EventClientCitations, c);
      var e :| e in events && c in EventClientCitations(e);
      FlatMapMember(e.contexts.value, ContextClientCitation, c);
    }
  }
}
