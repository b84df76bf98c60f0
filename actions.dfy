/** `GitHubActionsStatus.get` (github/views/github_actions.py): the latest workflow run of
    a branch. Straight-line classification of one reply, so it is modelled by functions. */
module Actions {
  import opened Json
  import opened Upstream
  import opened Crypto
  import opened Accounts
  import opened Http

  /** `latest.get(k)` where `latest` is already known to be a dict. */
  function Field(run: Json, k: string): Json
    requires run.Dict?
  {
    if Lookup(run.fields, k).Some? then Lookup(run.fields, k).value else Null
  }

  /** The response body built from the latest run: `id` is required (`latest["id"]`),
      the other fields default to null, and `head_branch` is reported as `branch`. */
  function Project(run: Json): (r: Py<Json>)
    ensures r.Ok? <==> run.Dict? && Lookup(run.fields, "id").Some?
    ensures r.Ok? ==> r.value == Dict([
      ("id", Lookup(run.fields, "id").value),
      ("name", Field(run, "name")),
      ("branch", Field(run, "head_branch")),
      ("status", Field(run, "status")),
      ("conclusion", Field(run, "conclusion")),
      ("html_url", Field(run, "html_url")),
      ("updated_at", Field(run, "updated_at"))])
  {
    var id :- Index(run, "id");
    Ok(Dict([("id", id), ("name", Field(run, "name")), ("branch", Field(run, "head_branch")),
             ("status", Field(run, "status")), ("conclusion", Field(run, "conclusion")),
             ("html_url", Field(run, "html_url")), ("updated_at", Field(run, "updated_at"))]))
  }

  function NoRuns(branch: string): Outcome {
    Response(204, Dict([("message", Str("No workflow runs found on branch '" + branch + "'"))]))
  }

  /** `result_data.get("workflow_runs", [])` of a dict. */
  function RunsOf(data: Json): Json
    requires data.Dict?
  {
    if Lookup(data.fields, "workflow_runs").Some? then Lookup(data.fields, "workflow_runs").value else List([])
  }

  /** What the view makes of the reply to the runs request. */
  function Classify(branch: string, t: Transport): (o: Outcome)
    // a connection error is not caught
    ensures t.Failed? ==> o == Unhandled(Exc(ConnectionError, t.message))
    // a body that is not JSON is a 502 carrying the raw text, whatever the status code
    ensures t.Answered? && t.reply.parsed.None? ==>
      o == Response(502, Dict([("error", Str("Invalid JSON from GitHub")), ("raw_response", Str(t.reply.text))]))
    // a JSON reply that is not 200 is passed through with its status and body
    ensures t.Answered? && t.reply.parsed.Some? && t.reply.status != 200 ==>
      o == Response(t.reply.status, Dict([("error", Str("GitHub API error")),
                                          ("status_code", Int(t.reply.status)),
                                          ("detail", t.reply.parsed.value)]))
    // a 200 whose `workflow_runs` is missing or empty is 204 "no runs", not an error
    ensures t.Answered? && t.reply.parsed.Some? && t.reply.status == 200 &&
            t.reply.parsed.value.Dict? && !Truthy(RunsOf(t.reply.parsed.value)) ==>
      o == NoRuns(branch)
    // a 200 answer from the view projects the FIRST run of a non-empty list, and nothing else
    ensures o.Response? && o.status == 200 ==>
      && t.Answered? && t.reply.status == 200 && t.reply.parsed.Some?
      && t.reply.parsed.value.Dict?
      && RunsOf(t.reply.parsed.value).List? && RunsOf(t.reply.parsed.value).items != []
      && Project(RunsOf(t.reply.parsed.value).items[0]) == Ok(o.body)
    // a 200 whose runs are a non-empty list with a run that has an id is answered 200
    ensures t.Answered? && t.reply.parsed.Some? && t.reply.status == 200 && t.reply.parsed.value.Dict? &&
            RunsOf(t.reply.parsed.value).List? && RunsOf(t.reply.parsed.value).items != [] &&
            Project(RunsOf(t.reply.parsed.value).items[0]).Ok? ==>
      o == Response(200, Project(RunsOf(t.reply.parsed.value).items[0]).value)
  {
    match t
    case Failed(m) => Unhandled(Exc(ConnectionError, m))
    case Answered(res) =>
      match res.parsed
      case None => Response(502, Dict([("error", Str("Invalid JSON from GitHub")), ("raw_response", Str(res.text))]))
      case Some(data) =>
        if res.status != 200 then
          Response(res.status, Dict([("error", Str("GitHub API error")), ("status_code", Int(res.status)), ("detail", data)]))
        else
          Settle(
            var runs :- GetOr(data, "workflow_runs", List([]));
            if !Truthy(runs) then Ok(NoRuns(branch))
            else
              var latest :- First(runs);
              var body :- Project(latest);
              Ok(Response(200, body)))
  }

  /** The one request the view issues: the runs of the branch (default "main"), one per page. */
  function RunsRequest(token: string, user: Account, query: Query): (req: Request)
    requires HasParam(query, "repo_name")
    ensures req.ListRuns? && req.perPage == 1 && req.token == token
    ensures req.branchFilter == (if "branch" in query then query["branch"] else "main")
    ensures req.repo == query["repo_name"] && req.owner == Show(user.username)
  {
    ListRuns(token, Show(user.username), query["repo_name"], Param(query, "branch", "main"), 1)
  }

  /** `GitHubActionsStatus.get` against a GitHub that answers `server`, after `history`. */
  function Status(server: Server, history: seq<Request>, crypto: Primitives, user: Account, query: Query): (r: Run)
    // a missing or empty repo_name is refused before the token is decrypted and before any call
    ensures !HasParam(query, "repo_name") ==>
      r == Run(Response(400, Error("Missing required parameter: repo_name")), [])
    // a token that does not decrypt is refused before any call
    ensures HasParam(query, "repo_name") && crypto.decrypt(user.accessToken).Raise? ==>
      r == Run(DecryptFailed(crypto.decrypt(user.accessToken).exc), [])
    // otherwise exactly one request is sent, for one run of the requested branch,
    // and the outcome is the classification of its reply
    ensures HasParam(query, "repo_name") && crypto.decrypt(user.accessToken).Ok? ==>
      && |r.sent| == 1
      && r.sent[0] == RunsRequest(crypto.decrypt(user.accessToken).value, user, query)
      && r.outcome == Classify(Param(query, "branch", "main"), server(history, r.sent[0]))
    ensures |r.sent| <= 1
  {
    if !HasParam(query, "repo_name") then
      Run(Response(400, Error("Missing required parameter: repo_name")), [])
    else
      match crypto.decrypt(user.accessToken)
      case Raise(e) => Run(DecryptFailed(e), [])
      case Ok(token) =>
        var req := RunsRequest(token, user, query);
        Run(Classify(Param(query, "branch", "main"), server(history, req)), [req])
  }
}
