/**
  The agent's tools (multi_tool/agent.py:24-196): a retrieval query against
  the RAG corpus, and three GitHub REST calls whose replies are shaped into
  the string handed back to the model. The HTTP client, the retrieval
  service and base64/UTF-8 decoding are parameters; a `Doc` stands for the
  dict that the tool passes to `json.dumps`.
 */
module GitHubTools {
  import opened Basics

  const UsernameVar := "GITHUB_USERNAME"
  const TokenVar := "GITHUB_TOKEN"
  const CorpusVar := "RAG_CORPUS"
  const DefaultUsername := "mohitagr18"
  const ApiBase := "https://api.github.com"
  const TopK := 5
  const BodyLimit := 200
  const InvalidJsonLimit := 500
  const CorpusMissing := "RAG corpus not configured"

  /** The environment the tools read, once. */
  datatype ToolConfig = ToolConfig(username: string, token: string, ragCorpus: Option<string>)

  /** `os.getenv('GITHUB_USERNAME', 'mohitagr18')` etc.: defaults apply only to unset variables. */
  function ConfigFromEnv(env: Env): (cfg: ToolConfig)
    ensures UsernameVar !in env ==> cfg.username == DefaultUsername
    ensures UsernameVar in env ==> cfg.username == env[UsernameVar]
    ensures TokenVar !in env ==> cfg.token == ""
    ensures TokenVar in env ==> cfg.token == env[TokenVar]
    ensures cfg.ragCorpus == Lookup(env, CorpusVar)
  {
    ToolConfig(Lookup(env, UsernameVar).GetOr(DefaultUsername), Lookup(env, TokenVar).GetOr(""), Lookup(env, CorpusVar))
  }

  // ---------------------------------------------------------------------
  // HTTP as the tools see it
  // ---------------------------------------------------------------------

  datatype Request = Request(url: string, headers: seq<(string, string)>)

  /** An Authorization header only for a non-empty token. */
  function AuthHeaders(token: string): (headers: seq<(string, string)>)
    ensures headers == [] <==> token == ""
    ensures |headers| <= 1
    ensures forall h :: h in headers ==> h.0 == "Authorization" && h.1 == "token " + token
  {
    if token != "" then [("Authorization", "token " + token)] else []
  }

  /** One entry of a directory listing. */
  datatype DirEntry = DirEntry(name: string, kind: string)

  /** A contents object: the two keys the tool reads. Its other keys are not modelled. */
  datatype FileObject = FileObject(content: Option<string>, size: Option<int>)

  /** What `response.json()` gives: a list, a mapping, or a parse error. */
  datatype Body =
    | JsonList(entries: seq<DirEntry>)
    | JsonObject(obj: FileObject)
    | Malformed(error: string)

  datatype HttpResponse = HttpResponse(status: nat, text: string, body: Body)

  /** `httpx.get`: a response, or the exception it raised. */
  datatype Fetch = Responded(response: HttpResponse) | TimedOut(message: string) | Raised(message: string)

  /** A dict the tool serialises with `json.dumps`. */
  datatype Doc =
    | HttpErrorDoc(error: string, message: string)
    | ExceptionDoc(error: string)
    | MetadataDoc(obj: FileObject)

  /** A tool's string result: literal text, or the JSON rendering of a dict. */
  datatype Reply = Plain(text: string) | Dumped(doc: Doc)

  // ---------------------------------------------------------------------
  // list_repositories and get_repository_info
  // ---------------------------------------------------------------------

  /**
    The shaping both JSON pass-through tools share: a 200 reply's body is
    returned unchanged; any other status becomes an error dict carrying the
    status and at most 200 characters of the body; an exception becomes an
    error dict with its text.
   */
  function PassThrough(fetch: Fetch): (reply: Reply)
    ensures fetch.Responded? && fetch.response.status == 200 <==> reply.Plain?
    ensures reply.Plain? ==> reply.text == fetch.response.text
    ensures fetch.Responded? && fetch.response.status != 200 ==>
              reply == Dumped(HttpErrorDoc("HTTP " + Decimal(fetch.response.status), Take(fetch.response.text, BodyLimit)))
    ensures !fetch.Responded? ==> reply == Dumped(ExceptionDoc(fetch.message))
  {
    match fetch
    case Responded(r) =>
      if r.status != 200 then Dumped(HttpErrorDoc("HTTP " + Decimal(r.status), Take(r.text, BodyLimit)))
      else Plain(r.text)
    case TimedOut(m) => Dumped(ExceptionDoc(m))
    case Raised(m) => Dumped(ExceptionDoc(m))
  }

  /** The user whose repositories are listed: the argument when truthy, else the configured one. */
  function RepoOwner(cfg: ToolConfig, username: Option<string>): string {
    if Truthy(username) then username.value else cfg.username
  }

  function ListRepositoriesRequest(cfg: ToolConfig, username: Option<string>): Request {
    Request(ApiBase + "/users/" + RepoOwner(cfg, username) + "/repos", AuthHeaders(cfg.token))
  }

  /**
    `list_repositories`: the configured user's (or the given user's)
    repositories, shaped by `PassThrough`.
   */
  function ListRepositories(cfg: ToolConfig, username: Option<string>, http: Request -> Fetch): (reply: Reply)
    ensures var f := http(ListRepositoriesRequest(cfg, username));
            (f.Responded? && f.response.status == 200 ==> reply == Plain(f.response.text))
            && (f.Responded? && f.response.status != 200 ==>
                  reply == Dumped(HttpErrorDoc("HTTP " + Decimal(f.response.status), Take(f.response.text, BodyLimit))))
            && (!f.Responded? ==> reply == Dumped(ExceptionDoc(f.message)))
  {
    PassThrough(http(ListRepositoriesRequest(cfg, username)))
  }

  /** With no username, or an empty one, the configured user is listed. */
  lemma ListRepositoriesDefaultsUser(cfg: ToolConfig, username: Option<string>, http: Request -> Fetch)
    requires !Truthy(username)
    ensures ListRepositories(cfg, username, http) == ListRepositories(cfg, Some(cfg.username), http)
    ensures ListRepositoriesRequest(cfg, username).url == ApiBase + "/users/" + cfg.username + "/repos"
  {
  }

  function RepositoryInfoRequest(cfg: ToolConfig, owner: string, repo: string): Request {
    Request(ApiBase + "/repos/" + owner + "/" + repo, AuthHeaders(cfg.token))
  }

  /** `get_repository_info`: the same shaping as `list_repositories`, for one repository. */
  function GetRepositoryInfo(cfg: ToolConfig, owner: string, repo: string, http: Request -> Fetch): (reply: Reply)
    ensures var f := http(RepositoryInfoRequest(cfg, owner, repo));
            (f.Responded? && f.response.status == 200 ==> reply == Plain(f.response.text))
            && (f.Responded? && f.response.status != 200 ==>
                  reply == Dumped(HttpErrorDoc("HTTP " + Decimal(f.response.status), Take(f.response.text, BodyLimit))))
            && (!f.Responded? ==> reply == Dumped(ExceptionDoc(f.message)))
  {
    PassThrough(http(RepositoryInfoRequest(cfg, owner, repo)))
  }

  // ---------------------------------------------------------------------
  // get_file_contents
  // ---------------------------------------------------------------------

  /** "- name (type)" */
  function EntryLine(e: DirEntry): string {
    "- " + e.name + " (" + e.kind + ")"
  }

  function EntryLines(entries: seq<DirEntry>): seq<string> {
    seq(|entries|, i requires 0 <= i < |entries| => EntryLine(entries[i]))
  }

  function ListingHeader(path: string): string {
    "Directory contents of " + (if path == "" then "root" else path) + ":"
  }

  /** The listing returned for a directory: a header, then one line per entry. */
  function DirectoryListing(path: string, entries: seq<DirEntry>): string {
    ListingHeader(path) + "\n" + JoinLines(EntryLines(entries))
  }

  /** No entry name or type holds a newline (so that each entry stays on its own line). */
  predicate SingleLineEntries(entries: seq<DirEntry>) {
    forall i :: 0 <= i < |entries| ==> '\n' !in entries[i].name && '\n' !in entries[i].kind
  }

  /** Reading the listing back line by line gives the header and then exactly the entries, in order. */
  lemma DirectoryListingLines(path: string, entries: seq<DirEntry>)
    requires |entries| >= 1 && SingleLineEntries(entries) && '\n' !in path
    ensures SplitLines(DirectoryListing(path, entries)) == [ListingHeader(path)] + EntryLines(entries)
  {
    var lines := EntryLines(entries);
    forall i | 0 <= i < |lines| ensures '\n' !in lines[i] {
      assert lines[i] == "- " + entries[i].name + " (" + entries[i].kind + ")";
    }
    SplitJoinLines(lines);
    assert '\n' !in ListingHeader(path);
    SplitAtNewline(ListingHeader(path), JoinLines(lines));
  }

  /**
    The shaping of a parsed 200 reply, shared by both copies of the tool:
    a list is a directory listing; a mapping with `content` is reported
    empty when its size is 0 or missing, and decoded otherwise; a mapping
    without `content` is dumped as metadata.
   */
  function ShapeBody(body: Body, path: string, decode: string -> Result<string, string>, decodeErrorPrefix: string): (reply: Reply)
    requires !body.Malformed?
    ensures body.JsonList? ==> reply == Plain(DirectoryListing(path, body.entries))
    ensures body.JsonObject? && body.obj.content.None? ==> reply == Dumped(MetadataDoc(body.obj))
    ensures body.JsonObject? && body.obj.content.Some? && body.obj.size.GetOr(0) == 0 ==>
              reply == Plain("File exists but is empty: " + path)
    ensures body.JsonObject? && body.obj.content.Some? && body.obj.size.GetOr(0) != 0 ==>
              match decode(body.obj.content.value)
              case Success(text) => reply == Plain(text)
              case Failure(e) => reply == Plain(decodeErrorPrefix + e)
  {
    match body
    case JsonList(entries) => Plain(DirectoryListing(path, entries))
    case JsonObject(obj) =>
      if obj.content.Some? then
        if obj.size.GetOr(0) == 0 then Plain("File exists but is empty: " + path)
        else match decode(obj.content.value)
          case Success(text) => Plain(text)
          case Failure(e) => Plain(decodeErrorPrefix + e)
      else Dumped(MetadataDoc(obj))
  }

  function FileContentsRequest(cfg: ToolConfig, owner: string, repo: string, path: string): Request {
    Request(ApiBase + "/repos/" + owner + "/" + repo + "/contents/" + path, AuthHeaders(cfg.token))
  }

  const NotFoundHint := ". The file may not exist or the repository may be private."

  /**
    `get_file_contents`: each failure has its own message (a timeout, any
    other exception, 404, another status with at most 200 characters of the
    body, a body that is not JSON with at most 500); a parsed 200 reply is
    shaped by `ShapeBody`.
   */
  function GetFileContents(cfg: ToolConfig, owner: string, repo: string, path: string,
                           http: Request -> Fetch, decode: string -> Result<string, string>): (reply: Reply)
    ensures var f := http(FileContentsRequest(cfg, owner, repo, path));
            (f.TimedOut? ==> reply == Plain("Timeout accessing GitHub API for " + owner + "/" + repo + "/" + path))
            && (f.Raised? ==> reply == Plain("Error: " + f.message))
            && (f.Responded? && f.response.status == 404 ==>
                  reply == Plain("File not found: " + path + " in " + owner + "/" + repo + NotFoundHint))
            && (f.Responded? && f.response.status != 404 && f.response.status != 200 ==>
                  reply == Plain("Error accessing file: HTTP " + Decimal(f.response.status) + ". " + Take(f.response.text, BodyLimit)))
            && (f.Responded? && f.response.status == 200 && f.response.body.Malformed? ==>
                  reply == Plain("Error: GitHub API returned invalid JSON. Response: " + Take(f.response.text, InvalidJsonLimit)))
            && (f.Responded? && f.response.status == 200 && !f.response.body.Malformed? ==>
                  reply == ShapeBody(f.response.body, path, decode, "Error decoding file content: "))
  {
    match http(FileContentsRequest(cfg, owner, repo, path))
    case TimedOut(_) => Plain("Timeout accessing GitHub API for " + owner + "/" + repo + "/" + path)
    case Raised(m) => Plain("Error: " + m)
    case Responded(r) =>
      if r.status == 404 then
        Plain("File not found: " + path + " in " + owner + "/" + repo + NotFoundHint)
      else if r.status != 200 then
        Plain("Error accessing file: HTTP " + Decimal(r.status) + ". " + Take(r.text, BodyLimit))
      else if r.body.Malformed? then
        Plain("Error: GitHub API returned invalid JSON. Response: " + Take(r.text, InvalidJsonLimit))
      else ShapeBody(r.body, path, decode, "Error decoding file content: ")
  }

  /** Only a 200 reply that parses can yield file text, a listing or metadata; every other outcome is a message. */
  lemma FileContentsErrorsArePlain(cfg: ToolConfig, owner: string, repo: string, path: string,
                                   http: Request -> Fetch, decode: string -> Result<string, string>)
    requires var f := http(FileContentsRequest(cfg, owner, repo, path));
             !(f.Responded? && f.response.status == 200 && !f.response.body.Malformed?)
    ensures GetFileContents(cfg, owner, repo, path, http, decode).Plain?
  {
  }

  /** An empty file is reported as such and never decoded, whatever the decoder does. */
  lemma EmptyFileNotDecoded(cfg: ToolConfig, owner: string, repo: string, path: string,
                            http: Request -> Fetch, d1: string -> Result<string, string>, d2: string -> Result<string, string>)
    requires var f := http(FileContentsRequest(cfg, owner, repo, path));
             f.Responded? && f.response.status == 200 && f.response.body.JsonObject?
             && f.response.body.obj.content.Some? && f.response.body.obj.size.GetOr(0) == 0
    ensures GetFileContents(cfg, owner, repo, path, http, d1) == GetFileContents(cfg, owner, repo, path, http, d2)
                                                              == Plain("File exists but is empty: " + path)
  {
  }

  // ---------------------------------------------------------------------
  // rag_retrieval
  // ---------------------------------------------------------------------

  /** A retrieved passage; `distance` is absent when the SDK object has no such attribute. */
  datatype Retrieved = Retrieved(text: string, distance: Option<real>)

  datatype RagRequest = RagRequest(corpus: string, query: string, topK: nat)

  /** What `rag.retrieval_query` does: returns passages or raises. */
  datatype Retrieval = Passages(items: seq<Retrieved>) | RetrievalFailed(message: string)

  /** A context of the tool's result: its text and distance (None when absent), and no source. */
  datatype RagContext = RagContext(text: string, distance: Option<real>)

  datatype RagReply =
    | RagError(message: string)
    | RagSuccess(contexts: seq<RagContext>, query: string)

  /** `rag_retrieval` */
  method RagRetrieval(cfg: ToolConfig, query: string, retrieve: RagRequest -> Retrieval) returns (reply: RagReply)
    ensures !Truthy(cfg.ragCorpus) ==> reply == RagError(CorpusMissing)
    ensures Truthy(cfg.ragCorpus) ==>
              match retrieve(RagRequest(cfg.ragCorpus.value, query, TopK))
              case RetrievalFailed(m) => reply == RagError("RAG retrieval failed: " + m)
              case Passages(items) =>
                reply.RagSuccess? && reply.query == query && |reply.contexts| == |items|
                && forall i :: 0 <= i < |items| ==> reply.contexts[i] == RagContext(items[i].text, items[i].distance)
  {
    if !Truthy(cfg.ragCorpus) {
      return RagError(CorpusMissing);
    }
    var response := retrieve(RagRequest(cfg.ragCorpus.value, query, TopK));
    if response.RetrievalFailed? {
      return RagError("RAG retrieval failed: " + response.message);
    }
    var contexts: seq<RagContext> := [];
    var i := 0;
    while i < |response.items|
      invariant 0 <= i <= |response.items|
      invariant |contexts| == i
      invariant forall k :: 0 <= k < i ==> contexts[k] == RagContext(response.items[k].text, response.items[k].distance)
    {
      contexts := contexts + [RagContext(response.items[i].text, response.items[i].distance)];
      i := i + 1;
    }
    reply := RagSuccess(contexts, query);
  }
}
