/**
  The deployment script (deployment/remote.py): which environment variables
  are shipped with the agent, how they are echoed, the configuration checks
  before deployment, the command-line dispatch, and the one nested tool that
  differs from its multi_tool/agent.py twin (`get_file_contents`). The other
  nested tools (`rag_retrieval`, `list_repositories`, `get_repository_info`)
  are line for line those of GitHubTools and are modelled there.
 */
module RemoteDeploy {
  import opened Basics
  import GitHubTools

  /** The variables forwarded to the deployed agent, in the order they are checked. */
  const DeployKeys: seq<string> := ["RAG_CORPUS", "GITHUB_USERNAME", "GITHUB_TOKEN"]

  const DisplayLimit := 50
  const Ellipsis := "..."

  /** `get_env_vars_for_deployment`: each listed variable that is set and non-empty, value unchanged. */
  method EnvVarsForDeployment(env: Env) returns (vars: map<string, string>)
    ensures forall k :: k in vars <==> k in DeployKeys && k in env && env[k] != ""
    ensures forall k :: k in vars ==> vars[k] == env[k]
  {
    vars := map[];
    if Truthy(Lookup(env, "RAG_CORPUS")) {
      vars := vars["RAG_CORPUS" := env["RAG_CORPUS"]];
    }
    if Truthy(Lookup(env, "GITHUB_USERNAME")) {
      vars := vars["GITHUB_USERNAME" := env["GITHUB_USERNAME"]];
    }
    if Truthy(Lookup(env, "GITHUB_TOKEN")) {
      vars := vars["GITHUB_TOKEN" := env["GITHUB_TOKEN"]];
    }
  }

  /** How a deployed value is echoed: more than 50 characters are cut to 50 and marked with "...". */
  function DisplayValue(value: string): (shown: string)
    ensures |value| <= DisplayLimit ==> shown == value
    ensures |value| > DisplayLimit ==>
              |shown| == DisplayLimit + |Ellipsis|
              && shown[..DisplayLimit] == value[..DisplayLimit]
              && shown[DisplayLimit..] == Ellipsis
  {
    if |value| > DisplayLimit then value[..DisplayLimit] + Ellipsis else value
  }

  datatype DeployConfig = DeployConfig(project: string, location: string, stagingBucket: string)

  const ProjectMissing := "GOOGLE_CLOUD_PROJECT not set in .env"
  const BucketMissing := "GOOGLE_CLOUD_STAGING_BUCKET not set in .env"
  const DeployLocation := "us-east4"

  /** The checks at the head of `create_remote_agent`, made before anything is initialised. */
  function CheckDeployConfig(env: Env): (r: Result<DeployConfig, string>)
    ensures r.Success? <==> Truthy(Lookup(env, "GOOGLE_CLOUD_PROJECT")) && Truthy(Lookup(env, "GOOGLE_CLOUD_STAGING_BUCKET"))
    ensures !Truthy(Lookup(env, "GOOGLE_CLOUD_PROJECT")) ==> r == Failure(ProjectMissing)
    ensures Truthy(Lookup(env, "GOOGLE_CLOUD_PROJECT")) && !Truthy(Lookup(env, "GOOGLE_CLOUD_STAGING_BUCKET")) ==>
              r == Failure(BucketMissing)
    ensures r.Success? ==>
              r.value.location == Lookup(env, "GOOGLE_CLOUD_LOCATION").GetOr(DeployLocation)
              && r.value.project == env["GOOGLE_CLOUD_PROJECT"]
              && r.value.stagingBucket == env["GOOGLE_CLOUD_STAGING_BUCKET"]
  {
    var project := Lookup(env, "GOOGLE_CLOUD_PROJECT");
    var bucket := Lookup(env, "GOOGLE_CLOUD_STAGING_BUCKET");
    if !Truthy(project) then Failure(ProjectMissing)
    else if !Truthy(bucket) then Failure(BucketMissing)
    else Success(DeployConfig(project.value, Lookup(env, "GOOGLE_CLOUD_LOCATION").GetOr(DeployLocation), bucket.value))
  }

  datatype ListConfig = ListConfig(project: string, location: string)

  /** The check at the head of `list_remote_agents`: only the project is required. */
  function CheckListConfig(env: Env): (r: Result<ListConfig, string>)
    ensures r.Failure? <==> !Truthy(Lookup(env, "GOOGLE_CLOUD_PROJECT"))
    ensures r.Failure? ==> r.error == ProjectMissing
    ensures r.Success? ==>
              r.value.project == env["GOOGLE_CLOUD_PROJECT"]
              && r.value.location == Lookup(env, "GOOGLE_CLOUD_LOCATION").GetOr(DeployLocation)
  {
    var project := Lookup(env, "GOOGLE_CLOUD_PROJECT");
    if !Truthy(project) then Failure(ProjectMissing)
    else Success(ListConfig(project.value, Lookup(env, "GOOGLE_CLOUD_LOCATION").GetOr(DeployLocation)))
  }

  /**
    Listing and deploying share the project check: both fail with the same
    message on a missing project, and where deploying passes, listing passes
    with the same project and location.
   */
  lemma DeployCheckImpliesListCheck(env: Env)
    ensures CheckDeployConfig(env) == Failure(ProjectMissing) <==> CheckListConfig(env) == Failure(ProjectMissing)
    ensures CheckDeployConfig(env).Success? ==>
              CheckListConfig(env) == Success(ListConfig(CheckDeployConfig(env).value.project, CheckDeployConfig(env).value.location))
  {
    assert ProjectMissing != BucketMissing by {
      assert ProjectMissing[13] == 'P' && BucketMissing[13] == 'S';
    }
  }

  // ---------------------------------------------------------------------
  // main
  // ---------------------------------------------------------------------

  /** What `main` does with `sys.argv`. */
  datatype Command =
    | ShowUsage
    | CreateAgent
    | DeleteAgent(resourceName: string)
    | MissingResourceName
    | ListAgents
    | UnknownCommand(command: string)

  predicate IsKnownCommand(c: string) {
    c == "create-agent" || c == "delete-agent" || c == "list-agents"
  }

  /** The command `main` dispatches to; `argv[0]` is the program. */
  function Dispatch(argv: seq<string>): (c: Command)
    ensures c == ShowUsage <==> |argv| < 2
    ensures c == CreateAgent <==> |argv| >= 2 && argv[1] == "create-agent"
    ensures c == ListAgents <==> |argv| >= 2 && argv[1] == "list-agents"
    ensures c == MissingResourceName <==> |argv| == 2 && argv[1] == "delete-agent"
    ensures c.DeleteAgent? <==> |argv| >= 3 && argv[1] == "delete-agent"
    ensures c.DeleteAgent? ==> c.resourceName == argv[2]
    ensures c.UnknownCommand? <==> |argv| >= 2 && !IsKnownCommand(argv[1])
    ensures c.UnknownCommand? ==> c.command == argv[1]
  {
    if |argv| < 2 then ShowUsage
    else
      var command := argv[1];
      if command == "create-agent" then CreateAgent
      else if command == "delete-agent" then
        if |argv| < 3 then MissingResourceName else DeleteAgent(argv[2])
      else if command == "list-agents" then ListAgents
      else UnknownCommand(command)
  }

  /** `main`'s own exit status: 1 for the argument errors, none when an action runs. */
  function ExitStatus(c: Command): (status: Option<nat>)
    ensures status == Some(1) <==> c.ShowUsage? || c.MissingResourceName? || c.UnknownCommand?
    ensures status == None <==> c.CreateAgent? || c.DeleteAgent? || c.ListAgents?
  {
    match c
    case ShowUsage => Some(1)
    case MissingResourceName => Some(1)
    case UnknownCommand(_) => Some(1)
    case _ => None
  }

  /** Exactly one action runs, or the script exits with status 1. */
  lemma DispatchRunsOneActionOrFails(argv: seq<string>)
    ensures var c := Dispatch(argv);
            ExitStatus(c) == Some(1)
            || (ExitStatus(c) == None && |argv| >= 2 && IsKnownCommand(argv[1]) && !c.MissingResourceName?)
  {
  }

  // ---------------------------------------------------------------------
  // The nested get_file_contents of create_agent
  // ---------------------------------------------------------------------

  /**
    The copy of `get_file_contents` deployed with the agent: shorter error
    messages, no special case for a timeout, and a body that does not parse
    falls to the generic exception message.
   */
  function NestedGetFileContents(cfg: GitHubTools.ToolConfig, owner: string, repo: string, path: string,
                                 http: GitHubTools.Request -> GitHubTools.Fetch,
                                 decode: string -> Result<string, string>): (reply: GitHubTools.Reply)
    ensures var f := http(GitHubTools.FileContentsRequest(cfg, owner, repo, path));
            (!f.Responded? ==> reply == GitHubTools.Plain("Error: " + f.message))
            && (f.Responded? && f.response.status == 404 ==>
                  reply == GitHubTools.Plain("File not found: " + path + " in " + owner + "/" + repo))
            && (f.Responded? && f.response.status != 404 && f.response.status != 200 ==>
                  reply == GitHubTools.Plain("Error: HTTP " + Decimal(f.response.status)))
            && (f.Responded? && f.response.status == 200 && f.response.body.Malformed? ==>
                  reply == GitHubTools.Plain("Error: " + f.response.body.error))
            && (f.Responded? && f.response.status == 200 && !f.response.body.Malformed? ==>
                  reply == GitHubTools.ShapeBody(f.response.body, path, decode, "Error decoding file: "))
  {
    match http(GitHubTools.FileContentsRequest(cfg, owner, repo, path))
    case TimedOut(m) => GitHubTools.Plain("Error: " + m)
    case Raised(m) => GitHubTools.Plain("Error: " + m)
    case Responded(r) =>
      if r.status == 404 then GitHubTools.Plain("File not found: " + path + " in " + owner + "/" + repo)
      else if r.status != 200 then GitHubTools.Plain("Error: HTTP " + Decimal(r.status))
      else if r.body.Malformed? then GitHubTools.Plain("Error: " + r.body.error)
      else GitHubTools.ShapeBody(r.body, path, decode, "Error decoding file: ")
  }

  /**
    On a parsed 200 reply the two copies agree, except for the wording of a
    decoding error: same listing, same empty-file message, same metadata.
   */
  lemma NestedAgreesOnParsedReplies(cfg: GitHubTools.ToolConfig, owner: string, repo: string, path: string,
                                    http: GitHubTools.Request -> GitHubTools.Fetch,
                                    decode: string -> Result<string, string>)
    requires var f := http(GitHubTools.FileContentsRequest(cfg, owner, repo, path));
             f.Responded? && f.response.status == 200 && !f.response.body.Malformed?
             && (f.response.body.JsonObject? && f.response.body.obj.content.Some? && f.response.body.obj.size.GetOr(0) != 0
                 ==> decode(f.response.body.obj.content.value).Success?)
    ensures NestedGetFileContents(cfg, owner, repo, path, http, decode)
         == GitHubTools.GetFileContents(cfg, owner, repo, path, http, decode)
  {
  }

  /** The nested copy's messages for a missing file and for another failing status. */
  lemma NestedStatusMessages(cfg: GitHubTools.ToolConfig, owner: string, repo: string, path: string,
                             http: GitHubTools.Request -> GitHubTools.Fetch,
                             decode: string -> Result<string, string>)
    requires http(GitHubTools.FileContentsRequest(cfg, owner, repo, path)).Responded?
    ensures var status := http(GitHubTools.FileContentsRequest(cfg, owner, repo, path)).response.status;
            var reply := NestedGetFileContents(cfg, owner, repo, path, http, decode);
            (status == 404 ==> reply == GitHubTools.Plain("File not found: " + path + " in " + owner + "/" + repo))
            && (status != 404 && status != 200 ==> reply == GitHubTools.Plain("Error: HTTP " + Decimal(status)))
  {
  }
}
