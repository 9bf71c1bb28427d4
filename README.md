# Portfolio chatbot: a Dafny model of its own logic

The portfolio chatbot is glue around a hosted agent runtime, a retrieval
service, the GitHub REST API and two Streamlit front ends. This project
models the repository's own logic and proves properties of it. That logic
is what these pieces do once every network or SDK answer is an input:

- **Event reducer** (`EventReducer`). The chat UI reduces the buffered agent
  events to one answer and a citation list. The last text part of a
  model-role event wins; nothing is concatenated. Citations are gathered in
  order, without de-duplication, from the `function_response` contexts of
  user-role events. Both front ends carry the same loop
  (deployment/st_app.py:282-311 and deployment/streamlit_app.py:202-234),
  so one method models both.
- **Tool activity** (`ToolActivity`). It counts `function_call` parts,
  whatever the role, and picks the status label: singular or plural, or
  "answered directly".
- **Agent client** (`AgentClient`). `init_vertexai`, and `query_agent`:
  - it resolves the session id, creating a session only when none is given;
  - it buffers every event and concatenates the `str()` of each content;
  - it collects top-level contexts that carry a `source_uri`;
  - a stream that raises turns into an error text and keeps what was collected.
- **Conversation** (`Conversation`). One exchange of either front end, as a
  function. Also the link between the retrieval tool's output and the
  citations the UI shows.
- **Chat state machines** (`ChatApp`, `ChatPage`). The Streamlit session
  state of deployment/st_app.py is a class with four fields: history,
  session id, re-entrancy flag and pending prompt. The other front end,
  deployment/streamlit_app.py, keeps only history and session id, also as a
  class. Each state-changing method is proved against a function of the old
  state (`Send`, `RunPending`, `Clear`, `Submit`), and the lemmas are about
  those functions.
- **Tools** (`GitHubTools`). multi_tool/agent.py's `rag_retrieval`,
  `list_repositories`, `get_file_contents` and `get_repository_info`: how
  each shapes an HTTP or retrieval outcome into its result.
- **Deployment script** (`RemoteDeploy`). deployment/remote.py:
  - the env-var filter;
  - the display truncation;
  - the configuration checks;
  - the command-line dispatch;
  - its nested copy of `get_file_contents`, which differs from the one above.

  The other nested tools in deployment/remote.py behave exactly as those of
  multi_tool/agent.py and are modelled once, in `GitHubTools`. The nested
  copies read `GITHUB_USERNAME` and `GITHUB_TOKEN` when `create_agent` runs
  rather than at import; `ConfigFromEnv` is that read either way.

Opaque calls are parameters of the model:

- `httpx.get` is `http: Request -> Fetch`;
- `rag.retrieval_query` is `retrieve: RagRequest -> Retrieval`;
- `create_session` and `stream_query` are the two fields of `Runtime`;
- Python's `str()` of an event's content is `show: Content -> string`;
- base64 plus UTF-8 decoding is `decode: string -> Result<string, string>`.

A dict that a tool hands to `json.dumps` is the `Doc` datatype. A Python
dict whose keys may be missing is a record of `Option` fields. The
environment is a `map<string, string>`.

Files: `basics.dfy` (Option/Result, Python slicing, the generic fold
`FlatMap`, decimal rendering, line joining), `events.dfy` (the event data
model), then one file per module above.

With no model text the UI's answer is the client's `response`, which is
"No response received" only when the client itself fell back
(`Conversation.EmptyStreamNoResponse`). An empty last text part discards the
earlier texts and falls back too (`EventReducer.EmptyLastTextFallsBack`).

## Model

| member | source | states |
|---|---|---|
| EventReducer.Answer | deployment/st_app.py:310-311 | with no events the answer is the client's `response`, or "No response received" when absent; the answer is empty only when that response is itself empty |
| EventReducer.ExtractAnswer | deployment/st_app.py:282-311 | the reducer loop yields exactly `Answer` (last model text, else the fallback) and `CitationsOf` (every cited context, in order) |
| EventReducer.ScanModelParts | deployment/st_app.py:289-292 | after a model event's parts the answer is the last of all texts seen so far |
| EventReducer.ScanUserParts | deployment/st_app.py:294-308 | a user event's parts append exactly the citations of their mapping `function_response` payloads, in order |
| EventReducer.ScanContexts | deployment/st_app.py:300-308 | a context list appends one citation per mapping context with `text`, in order |
| EventReducer.LaterTextWins | deployment/st_app.py:289-292 | once a later stretch of the stream ends in a non-empty text, no earlier event affects the answer (last write wins) |
| EventReducer.EmptyLastTextFallsBack | deployment/st_app.py:285-311 | an empty final text discards all earlier texts and the answer falls back |
| EventReducer.TwoModelTextsKeepLast | deployment/st_app.py:289-292 | model texts "A" then "B" give "B", not "AB" |
| EventReducer.CitationsAppend | deployment/st_app.py:294-308 | citations of a concatenated stream are the concatenation of the citations: order kept, nothing merged |
| EventReducer.CitationTextBounded | deployment/st_app.py:301-307 | every citation text is at most 200 characters |
| EventReducer.NoUserPartsNoCitations | deployment/st_app.py:294-296 | with no user-role event that has parts there are no citations |
| EventReducer.IgnoredEventChangesNothing | deployment/st_app.py:285-287 | an event that is not a mapping, or has no `content`, changes neither the answer nor the citations |
| EventReducer.DuplicateContextsKept | deployment/streamlit_app.py:218-230 | two identical tool results give two identical citations, source defaulted to "RAG Corpus", distance to "" |
| ToolActivity.CountToolCalls | deployment/st_app.py:235-247 | the counting loop returns the number of parts with a `function_call` over all events |
| ToolActivity.CountIgnoresRole | deployment/st_app.py:236-243 | changing an event's role does not change the tool calls counted |
| ToolActivity.ToolNoun | deployment/st_app.py:270 | "tools" exactly when the count is not 1, "tool" exactly when it is 1 |
| ToolActivity.PluralMark | deployment/st_app.py:270 | the character after "tool" in the label's tail is "s" exactly when the count is not 1 |
| ToolActivity.StatusLabel | deployment/st_app.py:268-279 | the direct-answer label exactly when the count is 0; otherwise exactly "✅ Used ", the count in decimal, " tool", an "s" iff the count is not 1, and the details suffix, nothing in between |
| ToolActivity.LabelShowsCount | deployment/st_app.py:268-273 | the digits in the label read back as the number of tool calls |
| AgentClient.InitVertexAI | deployment/agent_client.py:10-19 | fails with the "required" message exactly when the project is unset or empty; the location defaults to "us-central1" only when unset |
| AgentClient.LastSegment | deployment/agent_client.py:67 | the result is a slash-free suffix of the name, preceded by a slash whenever it is shorter |
| AgentClient.LastSegmentOfPath | deployment/agent_client.py:67 | the last segment of "dir/leaf" is "leaf" |
| AgentClient.SessionIdOf | deployment/agent_client.py:64-67 | a truthy `id` is used as is; otherwise the last "/" segment of `name`, or "" when `name` is absent |
| AgentClient.ResponseOf | deployment/agent_client.py:96-100 | the response is never empty; a raising stream gives "Error querying agent: …"; otherwise the concatenation when non-empty, else "No response received" |
| AgentClient.Query | deployment/agent_client.py:39-104 | a missing project fails; the response is non-empty; a truthy given session id is the one returned; the returned events are those streamed for the returned session id |
| AgentClient.QueryAgent | deployment/agent_client.py:61-104 | the imperative `query_agent` computes exactly `Query` |
| AgentClient.ConsumeStream | deployment/agent_client.py:75-95 | the streaming loop keeps every event in order, concatenates the content strings and collects the sourced contexts |
| AgentClient.CollectSourced | deployment/agent_client.py:89-95 | appends one citation per context with `source_uri`, in order |
| AgentClient.StreamTextAppend | deployment/agent_client.py:83-87 | the response text of a longer stream extends that of its prefix (concatenation, unlike the UI) |
| AgentClient.SuppliedSessionIsReused | deployment/agent_client.py:64-67 | with a truthy session id the result does not depend on `create_session` |
| AgentClient.FailureKeepsCollected | deployment/agent_client.py:74-104 | a raising stream still returns the events and citations delivered before it raised, with the error text as response |
| AgentClient.ClientCitationsSourced | deployment/agent_client.py:89-95 | every client citation text is at most 200 characters, and its source is the `source_uri` of a top-level context of some mapping event |
| GitHubTools.ConfigFromEnv | multi_tool/agent.py:17-18 | username defaults to "mohitagr18" and the token to "" only when the variable is unset |
| GitHubTools.AuthHeaders | multi_tool/agent.py:87 | an Authorization header "token …" is sent exactly when the token is non-empty |
| GitHubTools.PassThrough | multi_tool/agent.py:94-103 | a 200 reply returns the body unchanged; another status gives the error dict "HTTP <code>" with the body's first 200 characters as message; an exception gives the error dict of its text |
| GitHubTools.ListRepositories | multi_tool/agent.py:74-103 | for the listing request: the body on 200, the HTTP error dict with `body[:200]` otherwise, the exception's error dict when the call raises |
| GitHubTools.GetRepositoryInfo | multi_tool/agent.py:169-196 | the same three outcomes for the repository request |
| GitHubTools.GetFileContents | multi_tool/agent.py:106-166 | a timeout, another exception, 404, another status (`body[:200]`) and a body that is not JSON (`body[:500]`) each give their own message; a parsed 200 reply is shaped by `ShapeBody` |
| GitHubTools.ListRepositoriesDefaultsUser | multi_tool/agent.py:83-92 | with no or an empty username the configured user is listed |
| GitHubTools.DirectoryListingLines | multi_tool/agent.py:140-145 | the listing splits back into the header and one "- name (type)" line per entry, in order |
| GitHubTools.ShapeBody | multi_tool/agent.py:140-161 | a list gives the listing; content with size 0 or no size gives the empty-file message; other content is decoded or gives the decode error; no content gives the metadata dump |
| GitHubTools.FileContentsErrorsArePlain | multi_tool/agent.py:117-166 | every outcome other than a parsed 200 reply is a plain message |
| GitHubTools.EmptyFileNotDecoded | multi_tool/agent.py:148-151 | an empty file gives "File exists but is empty: <path>" whatever the decoder does |
| GitHubTools.RagRetrieval | multi_tool/agent.py:24-68 | no corpus gives the not-configured error without a query; a failure gives "RAG retrieval failed: …"; otherwise one context per passage, in order, with text and distance, and the query echoed |
| RemoteDeploy.EnvVarsForDeployment | deployment/remote.py:19-30 | exactly those of RAG_CORPUS, GITHUB_USERNAME and GITHUB_TOKEN that are set and non-empty, values unchanged |
| RemoteDeploy.DisplayValue | deployment/remote.py:442-444 | values up to 50 characters are shown unchanged; longer ones as their first 50 characters and "..." |
| RemoteDeploy.CheckDeployConfig | deployment/remote.py:423-430 | succeeds exactly when project and bucket are set; the project error comes first; the location defaults to "us-east4" |
| RemoteDeploy.CheckListConfig | deployment/remote.py:505-512 | `list_remote_agents` fails with "GOOGLE_CLOUD_PROJECT not set in .env" exactly when the project is unset or empty; the location defaults to "us-east4" |
| RemoteDeploy.DeployCheckImpliesListCheck | deployment/remote.py:423-430 | both checks give the same project error, and a configuration that passes the deployment check passes the listing check with the same project and location |
| RemoteDeploy.Dispatch | deployment/remote.py:522-544 | usage for fewer than 2 arguments; each known command maps to its action; delete-agent without a name and unknown commands are errors |
| RemoteDeploy.ExitStatus | deployment/remote.py:524-544 | `main`'s own `sys.exit(1)` happens exactly for usage, a missing resource name and an unknown command |
| RemoteDeploy.DispatchRunsOneActionOrFails | deployment/remote.py:522-544 | either the script exits 1 or exactly one known action runs |
| RemoteDeploy.NestedGetFileContents | deployment/remote.py:93-128 | any exception, including a body that is not JSON, gives "Error: …"; 404 and other statuses give the short messages; a parsed 200 reply is shaped by `ShapeBody` with "Error decoding file: " |
| RemoteDeploy.NestedAgreesOnParsedReplies | deployment/remote.py:109-125 | on a parsed 200 reply the nested tool gives the same listing, empty-file message, decoded text and metadata as multi_tool/agent.py |
| RemoteDeploy.NestedStatusMessages | deployment/remote.py:103-107 | 404 gives "File not found: {path} in {owner}/{repo}"; another non-200 gives "Error: HTTP {code}" |
| Conversation.Ask | deployment/st_app.py:201-226 | a missing AGENT_RESOURCE_NAME fails before querying; a successful query has a non-empty response |
| Conversation.Reply | deployment/st_app.py:310-332 | the stored reply is an assistant message, non-empty whenever the client's response is |
| Conversation.Exchange | deployment/streamlit_app.py:173-254 | the history is only extended, the user's message first; a failed query appends nothing else and keeps the session id |
| Conversation.ExchangeAppends | deployment/streamlit_app.py:175-254 | the user message is appended first; only on success one non-empty assistant message follows and the session id becomes the returned one |
| Conversation.ExchangeKeepsSession | deployment/streamlit_app.py:192-199 | a truthy stored session id survives a successful exchange |
| Conversation.EmptyStreamNoResponse | deployment/streamlit_app.py:232-234 | a stream with no events and no error is answered "No response received", without citations |
| Conversation.RagEventCitations | deployment/st_app.py:294-308 | the event carrying the retrieval tool's dict is cited exactly for its contexts when the retrieval succeeded, and not at all when it failed |
| Conversation.RagCitations | deployment/st_app.py:300-307 | each retrieval passage becomes one UI citation, in order, text cut to 200, source "RAG Corpus" |
| Conversation.RagContextsNotClientCited | deployment/agent_client.py:89-95 | the client never cites a retrieval passage: it has no `source_uri` |
| ChatApp.ChatSession.constructor | deployment/st_app.py:83-90 | empty history, no session id, flag down, no pending prompt |
| ChatApp.ChatSession.PickQuickPrompt | deployment/st_app.py:158-172 | a quick prompt only sets the pending prompt |
| ChatApp.ChatSession.ClearHistory | deployment/st_app.py:137-140 | the new state is `Clear` of the old one |
| ChatApp.ChatSession.SendPrompt | deployment/st_app.py:188-337 | the new state is `Send` of the old one; a status label is shown exactly when the guard passed and the query succeeded, and it is the label for that query's tool count |
| ChatApp.ChatSession.ProcessPending | deployment/st_app.py:340-343 | the new state is `RunPending` of the old one |
| ChatApp.GuardedSendIsNoOp | deployment/st_app.py:189-190 | an empty prompt or a send in progress leaves the state unchanged |
| ChatApp.SendLowersFlag | deployment/st_app.py:191-205 | the flag is down after every send that passed the guard, whatever the query did |
| ChatApp.SuccessfulSend | deployment/st_app.py:194-332 | a successful send appends the user message then the reduced assistant message, and adopts the returned session id |
| ChatApp.PendingSentOnce | deployment/st_app.py:340-343 | running the orchestration twice equals running it once |
| ChatApp.ClearResets | deployment/st_app.py:137-140 | clearing empties history and session id, keeps the rest, and is idempotent |
| ChatPage.ChatHistory.constructor | deployment/streamlit_app.py:84-87 | empty history and no session id |
| ChatPage.ChatHistory.ClearHistory | deployment/streamlit_app.py:124-127 | empty history and no session id |
| ChatPage.ChatHistory.HandleChatInput | deployment/streamlit_app.py:173-254 | the new state is `Submit` of the old one |
| ChatPage.SubmitSession | deployment/streamlit_app.py:192-199 | the session id becomes the query's on success and is kept otherwise |
| ChatPage.FailedQueryKeepsUserMessage | deployment/streamlit_app.py:175-189 | a failed query leaves the user message in the history and nothing else |

## Left out

- Streamlit rendering: widgets, CSS, the status box, the expanders, the tool icons and the per-tool progress lines. Only the session-state fields and the data appended to them are modelled.
- The relevance display `1 - float(distance)` is not modelled. In deployment/st_app.py:322-326 a failure there is caught and ignored.
- ChatPage.ChatHistory.HandleChatInput: does not model a failure of the relevance display in deployment/streamlit_app.py:245-246, where `float` is unguarded. A truthy distance that is not a number raises there. The handler at :256 catches it, so the assistant message (:250-254) is not appended, although the session id was already replaced at :199. `Conversation.Exchange` appends the reply in that case, because `float`'s parsing of strings is not modelled.
- Network and SDK calls `httpx.get`, `rag.retrieval_query`, `create_session` and `stream_query` are parameters. `vertexai.init` and `agent_engines.get`, `create`, `delete` and `list` are not modelled, so a failing agent lookup is not a modelled error path.
- GitHubTools.ShapeBody: the metadata dump keeps only the `content` and `size` keys of the contents object (`MetadataDoc`); the other keys that `json.dumps` prints are not modelled.
- `list_remote_agents` is modelled up to its project check (`CheckListConfig`); listing the agents is an SDK call and is not modelled. `delete_remote_agent` only calls the SDK (it reads the project and location unchecked); `Dispatch` names it as an action.
- Python's `str()` of event content, base64/UTF-8 decoding and `json.dumps` formatting are opaque parameters or structured values (`Doc`).
- The traceback text in `rag_retrieval`'s error dict (`details`) is not modelled.
- The instruction prompts of the agent and deployment/deploy_with_mcp.py and deployment/local.py are not part of this model.
- Malformed shapes the code does not guard against are not modelled. Examples: a `content` that is not a mapping, a `text` or `size` that is null or not a string, a directory entry without `name`, or a context that is a string. A context that is not a mapping is taken to hold no `source_uri`. Where the code would raise, its exception handler is not modelled.
- The order in which the deployment script prints the env vars (dict iteration order) is not modelled; `EnvVarsForDeployment` returns a map.
