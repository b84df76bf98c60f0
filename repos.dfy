/** The repository views of github/views/repo.py: listing the user's repositories,
    creating one, and reading a file or a directory. */
module Repos {
  import opened Json
  import opened Upstream
  import opened Crypto
  import opened Accounts
  import opened Http

  // ================================================================ GitHubRepoList.get

  /** The repository has what the listing reads: name, full_name, html_url,
      default_branch, and an owner that is a dict with a login. */
  predicate HasSummaryFields(repo: Json) {
    && repo.Dict?
    && Lookup(repo.fields, "name").Some?
    && Lookup(repo.fields, "full_name").Some?
    && Lookup(repo.fields, "html_url").Some?
    && Lookup(repo.fields, "default_branch").Some?
    && Lookup(repo.fields, "owner").Some?
    && Lookup(repo.fields, "owner").value.Dict?
    && Lookup(Lookup(repo.fields, "owner").value.fields, "login").Some?
  }

  /** One repository as the listing reports it; a missing field raises. */
  function Summary(repo: Json): (r: Py<Json>)
    ensures r.Ok? <==> HasSummaryFields(repo)
    ensures r.Ok? ==> r.value == Dict([
      ("name", At(repo, "name", Null)),
      ("full_name", At(repo, "full_name", Null)),
      ("html_url", At(repo, "html_url", Null)),
      ("default_branch", At(repo, "default_branch", Null)),
      ("owner", At(At(repo, "owner", Null), "login", Null))])
  {
    var name :- Index(repo, "name");
    var fullName :- Index(repo, "full_name");
    var url :- Index(repo, "html_url");
    var branch :- Index(repo, "default_branch");
    var owner :- Index(repo, "owner");
    var login :- Index(owner, "login");
    Ok(Dict([("name", name), ("full_name", fullName), ("html_url", url),
             ("default_branch", branch), ("owner", login)]))
  }

  /** The 502 answer to a reply that is not JSON. */
  function InvalidJson(raw: string): Outcome {
    Response(502, Dict([("error", Str("Invalid JSON from GitHub")), ("raw_response", Str(raw))]))
  }

  /** The answer to a JSON reply that is not 200: its status and body, passed through. */
  function ApiError(status: int, detail: Json): Outcome {
    Response(status, Dict([("error", Str("GitHub API error")), ("status_code", Int(status)), ("detail", detail)]))
  }

  /** What the listing makes of the reply to its one request (repo.py:28-55). */
  function ListOutcome(t: Transport): (o: Outcome)
    // a connection error is not caught
    ensures t.Failed? ==> o == Unhandled(Exc(ConnectionError, t.message))
    // a body that is not JSON is a 502 with the raw text, decided before the status is looked at
    ensures t.Answered? && t.reply.parsed.None? ==> o == InvalidJson(t.reply.text)
    // a JSON error reply is passed through with the upstream status
    ensures t.Answered? && t.reply.parsed.Some? && t.reply.status != 200 ==>
      o == ApiError(t.reply.status, t.reply.parsed.value)
    // a 200 list of repositories gives exactly one summary per repository, in the same order
    ensures t.Answered? && t.reply.status == 200 && t.reply.parsed.Some? && t.reply.parsed.value.List? &&
            (forall i :: 0 <= i < |t.reply.parsed.value.items| ==> HasSummaryFields(t.reply.parsed.value.items[i])) ==>
      var repos := t.reply.parsed.value.items;
      && o.Response? && o.status == 200 && o.body.List?
      && |o.body.items| == |repos|
      && forall i :: 0 <= i < |repos| ==> Summary(repos[i]) == Ok(o.body.items[i])
    // a repository lacking a field makes the whole view fail, with no partial listing
    ensures t.Answered? && t.reply.status == 200 && t.reply.parsed.Some? && t.reply.parsed.value.List? &&
            (exists i :: 0 <= i < |t.reply.parsed.value.items| && !HasSummaryFields(t.reply.parsed.value.items[i])) ==>
      o.Unhandled?
    // the view answers 200 only to a 200 reply
    ensures o.Response? && o.status == 200 ==> t.Answered? && t.reply.status == 200
  {
    Settle(
      var res :- Deliver(t);
      match res.parsed
      case None => Ok(InvalidJson(res.text))
      case Some(data) =>
        if res.status != 200 then Ok(ApiError(res.status, data))
        else
          var repos :- Iter(data);
          var rows :- Traverse(Summary, repos);
          Ok(Response(200, List(rows))))
  }

  /** `GitHubRepoList.get` against a GitHub that answers `server`, after `history`. */
  function RepoList(server: Server, history: seq<Request>, crypto: Primitives, user: Account): (r: Run)
    // a token that does not decrypt is refused before any call
    ensures crypto.decrypt(user.accessToken).Raise? ==>
      r == Run(DecryptFailed(crypto.decrypt(user.accessToken).exc), [])
    // otherwise one request, for the public repositories, 100 per page, and its reply decides
    ensures crypto.decrypt(user.accessToken).Ok? ==>
      var req := ListRepos(crypto.decrypt(user.accessToken).value, 100, "public");
      r == Run(ListOutcome(server(history, req)), [req])
  {
    match crypto.decrypt(user.accessToken)
    case Raise(e) => Run(DecryptFailed(e), [])
    case Ok(token) =>
      var req := ListRepos(token, 100, "public");
      Run(ListOutcome(server(history, req)), [req])
  }

  /** The loop that builds the rows of the listing, one repository after the other. */
  method SummarizeAll(repos: seq<Json>) returns (r: Py<seq<Json>>)
    ensures r == Traverse(Summary, repos)
  {
    var rows: seq<Json> := [];
    var i := 0;
    while i < |repos|
      invariant 0 <= i <= |repos| && |rows| == i
      invariant forall j :: 0 <= j < i ==> Summary(repos[j]) == Ok(rows[j])
    {
      var s := Summary(repos[i]);
      if s.Raise? {
        TraverseStopsAt(Summary, repos, i);
        return Raise(s.exc);
      }
      rows := rows + [s.value];
      i := i + 1;
    }
    TraverseAll(Summary, repos, rows);
    r := Ok(rows);
  }

  /** The listing view, as the source runs it: one request, then a loop that builds the rows. */
  method ListRepositories(gh: Remote, crypto: Primitives, user: Account) returns (out: Outcome)
    modifies gh
    ensures var r := RepoList(gh.server, old(gh.log), crypto, user);
      out == r.outcome && gh.log == old(gh.log) + r.sent
  {
    var dec := crypto.decrypt(user.accessToken);
    if dec.Raise? {
      return DecryptFailed(dec.exc);
    }
    var t := gh.Send(ListRepos(dec.value, 100, "public"));
    if t.Failed? {
      return Unhandled(Exc(ConnectionError, t.message));
    }
    var res := t.reply;
    if res.parsed.None? {
      return InvalidJson(res.text);
    }
    if res.status != 200 {
      return ApiError(res.status, res.parsed.value);
    }
    var it := Iter(res.parsed.value);
    if it.Raise? {
      return Unhandled(it.exc);
    }
    var rows := SummarizeAll(it.value);
    out := Settle(match rows case Ok(v) => Ok(Response(200, List(v))) case Raise(e) => Raise(e));
  }
  // ================================================================ GitHubCreateRepo.post

  /** `e.get("field") == "name" and "exists" in e.get("message", "")` for one entry of a
      422's `errors`; the substring test is only evaluated when the field is "name". */
  function IsExistsError(e: Json): (r: Py<bool>)
    ensures r.Ok? <==> e.Dict? && (Get(e, "field").value == Str("name") ==> Contains(At(e, "message", Str("")), "exists").Ok?)
    ensures r == Ok(true) <==>
      e.Dict? && Get(e, "field").value == Str("name") && Contains(At(e, "message", Str("")), "exists") == Ok(true)
  {
    var field :- Get(e, "field");
    if field != Str("name") then Ok(false)
    else Contains(At(e, "message", Str("")), "exists")
  }

  /** `any(...)` over the entries, evaluated lazily from the front: true at the first entry
      that reports a taken name; an exception of an entry before that propagates. */
  function AnyExists(es: seq<Json>): (r: Py<bool>)
    ensures r == Ok(false) <==> forall i :: 0 <= i < |es| ==> IsExistsError(es[i]) == Ok(false)
    ensures r == Ok(true) ==> exists k :: 0 <= k < |es| && IsExistsError(es[k]) == Ok(true)
  {
    if es == [] then Ok(false)
    else
      match IsExistsError(es[0])
      case Raise(e) => Raise(e)
      case Ok(b) =>
        if b then Ok(true)
        else
          var r := AnyExists(es[1..]);
          assert forall i :: 1 <= i < |es| ==> es[1..][i - 1] == es[i];
          r
  }

  /** `any` stops at the first entry that reports a taken name: whatever the entries after
      it are (even ones that would raise), the answer is true. */
  lemma {:induction false} AnyExistsStopsAt(es: seq<Json>, k: nat)
    requires k < |es| && IsExistsError(es[k]) == Ok(true)
    requires forall j :: 0 <= j < k ==> IsExistsError(es[j]) == Ok(false)
    ensures AnyExists(es) == Ok(true)
  {
    if k > 0 {
      assert forall j :: 0 <= j < k - 1 ==> es[1..][j] == es[j + 1];
      AnyExistsStopsAt(es[1..], k - 1);
    }
  }

  /** Whether a 422 body says the name is taken: `body.get("errors", [])`, iterated. */
  function NameTaken(body: Json): (r: Py<bool>)
    ensures r.Ok? ==> body.Dict?
    ensures body.Dict? && Lookup(body.fields, "errors").None? ==> r == Ok(false)
    ensures body.Dict? && Lookup(body.fields, "errors").Some? && Lookup(body.fields, "errors").value.List? ==>
      r == AnyExists(Lookup(body.fields, "errors").value.items)
  {
    var errors :- GetOr(body, "errors", List([]));
    var es :- Iter(errors);
    AnyExists(es)
  }

  /** The 409 answer to a name that already exists. */
  function NameConflict(): Outcome {
    Response(409, Dict([("error", Str("Repo name already exists")), ("code", Str("name_conflict"))]))
  }

  /** The answer to any other JSON reply that is not 201: its status and body, passed through. */
  function CreationFailed(status: int, detail: Json): Outcome {
    Response(status, Dict([("error", Str("GitHub repo creation failed")), ("status_code", Int(status)), ("detail", detail)]))
  }

  /** The 201 answer, with four fields of the created repository. */
  function Created(body: Json): (r: Py<Outcome>)
    ensures r.Ok? <==> body.Dict? && Lookup(body.fields, "name").Some? && Lookup(body.fields, "full_name").Some? &&
                       Lookup(body.fields, "html_url").Some? && Lookup(body.fields, "default_branch").Some?
    // the success message and the four fields, under their own names, as GitHub sent them
    ensures r.Ok? ==> r.value == Response(201, Dict([
      ("message", Str("Public repository created successfully")),
      ("repo", Dict([
        ("name", Lookup(body.fields, "name").value),
        ("full_name", Lookup(body.fields, "full_name").value),
        ("html_url", Lookup(body.fields, "html_url").value),
        ("default_branch", Lookup(body.fields, "default_branch").value)]))]))
    // a dict missing one of them raises `KeyError`
    ensures body.Dict? && r.Raise? ==> r.exc.kind == KeyError
  {
    var name :- Index(body, "name");
    var fullName :- Index(body, "full_name");
    var url :- Index(body, "html_url");
    var branch :- Index(body, "default_branch");
    Ok(Response(201, Dict([
      ("message", Str("Public repository created successfully")),
      ("repo", Dict([("name", name), ("full_name", fullName), ("html_url", url), ("default_branch", branch)]))])))
  }

  /** What the view makes of the reply to its POST (repo.py:90-132). */
  function CreateOutcome(t: Transport): (o: Outcome)
    // a connection error is not caught
    ensures t.Failed? ==> o == Unhandled(Exc(ConnectionError, t.message))
    // a body that is not JSON is a 502 carrying the raw text, whatever the status
    ensures t.Answered? && t.reply.parsed.None? ==>
      o == Response(502, Dict([("error", Str("GitHub returned non-JSON response")), ("raw_response", Str(t.reply.text))]))
    // a name conflict is reported exactly for a 422 whose errors report the name as taken
    ensures o == NameConflict() <==>
      t.Answered? && t.reply.parsed.Some? && t.reply.status == 422 && NameTaken(t.reply.parsed.value) == Ok(true)
    // any other JSON error status is passed through with the decoded body
    ensures t.Answered? && t.reply.parsed.Some? && t.reply.status != 201 && t.reply.status != 422 ==>
      o == CreationFailed(t.reply.status, t.reply.parsed.value)
    // so is a 422 that does not report the name as taken
    ensures t.Answered? && t.reply.parsed.Some? && t.reply.status == 422 && NameTaken(t.reply.parsed.value) == Ok(false) ==>
      o == CreationFailed(422, t.reply.parsed.value)
    // the handler for an invalid body inside the error branch is never reached
    ensures t.Answered? ==> o != Response(502, Dict([("error", Str("GitHub returned invalid response")), ("raw", Str(t.reply.text))]))
    // a JSON 201 is answered with the success response built from GitHub's body, or, when
    // that body lacks a field, with the uncaught exception
    ensures t.Answered? && t.reply.parsed.Some? && t.reply.status == 201 ==>
      o == Settle(Created(t.reply.parsed.value))
    // a 422 whose `errors` cannot be read raises out of the view
    ensures t.Answered? && t.reply.parsed.Some? && t.reply.status == 422 && NameTaken(t.reply.parsed.value).Raise? ==>
      o == Unhandled(NameTaken(t.reply.parsed.value).exc)
    // success is reported only for a 201 from GitHub
    ensures o.Response? && o.status == 201 ==>
      t.Answered? && t.reply.status == 201 && t.reply.parsed.Some? && Created(t.reply.parsed.value) == Ok(o)
  {
    Settle(
      var res :- Deliver(t);
      match res.parsed
      case None =>
        Ok(Response(502, Dict([("error", Str("GitHub returned non-JSON response")), ("raw_response", Str(res.text))])))
      case Some(body) =>
        if res.status != 201 then
          if res.status == 422 then
            var taken :- NameTaken(body);
            if taken then Ok(NameConflict()) else Ok(CreationFailed(res.status, body))
          else Ok(CreationFailed(res.status, body))
        else Created(body))
  }

  /** `GitHubCreateRepo.post` with the decoded request body `data`. */
  function CreateRepository(server: Server, history: seq<Request>, crypto: Primitives, user: Account, data: Json): (r: Run)
    // a body that is not a dict has no `get`
    ensures !data.Dict? ==> r.outcome.Unhandled? && r.outcome.exc.kind == AttributeError && r.sent == []
    // an empty or missing name is refused before the token is decrypted and before any call
    ensures data.Dict? && !Truthy(At(data, "name", Null)) ==>
      r == Run(Response(400, Error("Repository name is required")), [])
    ensures data.Dict? && Truthy(At(data, "name", Null)) && crypto.decrypt(user.accessToken).Raise? ==>
      r == Run(DecryptFailed(crypto.decrypt(user.accessToken).exc), [])
    // otherwise one POST: never private, description defaulting to "", auto_init to true
    ensures data.Dict? && Truthy(At(data, "name", Null)) && crypto.decrypt(user.accessToken).Ok? ==>
      var req := CreateRepo(crypto.decrypt(user.accessToken).value, At(data, "name", Null),
                            At(data, "description", Str("")), false, At(data, "auto_init", Bool(true)));
      r == Run(CreateOutcome(server(history, req)), [req])
    ensures forall i :: 0 <= i < |r.sent| ==> r.sent[i].CreateRepo? && !r.sent[i].isPrivate
  {
    match Get(data, "name")
    case Raise(e) => Run(Unhandled(e), [])
    case Ok(name) =>
      var description := At(data, "description", Str(""));
      var autoInit := At(data, "auto_init", Bool(true));
      if !Truthy(name) then Run(Response(400, Error("Repository name is required")), [])
      else
        match crypto.decrypt(user.accessToken)
        case Raise(e) => Run(DecryptFailed(e), [])
        case Ok(token) =>
          var req := CreateRepo(token, name, description, false, autoInit);
          Run(CreateOutcome(server(history, req)), [req])
  }
  // ================================================================ GitHubRepoFileContentsView.get

  /** The content a download reply gives a listing entry: the text on a 200, null otherwise. */
  function ContentOf(res: Reply): Json {
    if res.status == 200 then Str(res.text) else Null
  }

  /** `requests.get(url)` of a download URL: the text on a 200, null on any other status;
      a connection error is not caught. */
  function FetchContent(server: Server, history: seq<Request>, url: Json): (r: Traced<Json>)
    ensures r.sent == [Download(url)]
    ensures r.value.Ok? <==> server(history, Download(url)).Answered?
    ensures r.value.Ok? ==> r.value.value == ContentOf(server(history, Download(url)).reply)
  {
    var req := Download(url);
    match server(history, req)
    case Failed(m) => Traced(Raise(Exc(ConnectionError, m)), [req])
    case Answered(res) => Traced(Ok(ContentOf(res)), [req])
  }

  /** The entry is a file with a download URL, so its content is downloaded. */
  predicate Downloadable(entry: Json) {
    entry.Dict? && Index(entry, "type") == Ok(Str("file")) && Truthy(At(entry, "download_url", Null))
  }

  /** `{"name": entry["name"], "path": entry["path"], "content": content}`. */
  function Describe(entry: Json, content: Json): (r: Py<Json>)
    ensures r.Ok? <==> entry.Dict? && Lookup(entry.fields, "name").Some? && Lookup(entry.fields, "path").Some?
    ensures r.Ok? ==> r.value == Dict([("name", At(entry, "name", Null)), ("path", At(entry, "path", Null)), ("content", content)])
  {
    var name :- Index(entry, "name");
    var path :- Index(entry, "path");
    Ok(Dict([("name", name), ("path", path), ("content", content)]))
  }

  /** One child of a directory listing (repo.py:170-179): `type` is required, the content is
      downloaded only for a file with a download URL, then `name` and `path` are required. */
  function Entry(server: Server, history: seq<Request>, entry: Json): (r: Traced<Json>)
    // at most one request, the download of this entry, and only for a downloadable entry
    ensures r.sent == (if Downloadable(entry) then [Download(At(entry, "download_url", Null))] else [])
    // a downloadable entry carries the downloaded text on a 200 and null otherwise
    ensures r.value.Ok? && Downloadable(entry) ==>
      && server(history, r.sent[0]).Answered?
      && Describe(entry, ContentOf(server(history, r.sent[0]).reply)) == r.value
    // any other entry carries null
    ensures r.value.Ok? && !Downloadable(entry) ==> Describe(entry, Null) == r.value
    // an entry fails only by lacking a field or by a failed download
    ensures r.value.Raise? ==>
      || !entry.Dict? || Lookup(entry.fields, "type").None?
      || Lookup(entry.fields, "name").None? || Lookup(entry.fields, "path").None?
      || (Downloadable(entry) && server(history, r.sent[0]).Failed?)
    // and each of these does fail it: a missing field raises, and so does a failed download
    ensures !entry.Dict? || Lookup(entry.fields, "type").None? ==> r == Traced(Raise(Index(entry, "type").exc), [])
    ensures entry.Dict? && (Lookup(entry.fields, "name").None? || Lookup(entry.fields, "path").None?) ==> r.value.Raise?
    ensures Downloadable(entry) && server(history, r.sent[0]).Failed? ==>
      r.value == Raise(Exc(ConnectionError, server(history, r.sent[0]).message))
  {
    match Index(entry, "type")
    case Raise(e) => Traced(Raise(e), [])
    case Ok(kind) =>
      var fetched :=
        if kind == Str("file") && Truthy(At(entry, "download_url", Null))
        then FetchContent(server, history, At(entry, "download_url", Null))
        else Traced(Ok(Null), []);
      match fetched.value
      case Raise(e) => Traced(Raise(e), fetched.sent)
      case Ok(content) => Traced(Describe(entry, content), fetched.sent)
  }

  /** The downloads a directory listing issues: one per downloadable entry, in order. */
  function Downloads(entries: seq<Json>): (r: seq<Request>)
    ensures |r| <= |entries|
  {
    if entries == [] then []
    else (if Downloadable(entries[0]) then [Download(At(entries[0], "download_url", Null))] else []) + Downloads(entries[1..])
  }

  /** `prefix` rows already built, with `sent` requests issued, followed by the rest `t`. */
  function Prepend(rows: seq<Json>, sent: seq<Request>, t: Traced<seq<Json>>): (r: Traced<seq<Json>>)
    ensures r.sent == sent + t.sent
    ensures r.value.Ok? <==> t.value.Ok?
    ensures r.value.Ok? ==> r.value.value == rows + t.value.value
  {
    Traced(match t.value case Ok(v) => Ok(rows + v) case Raise(e) => Raise(e), sent + t.sent)
  }

  /** The loop over a directory's entries, in order; each entry sees the requests issued before it. */
  function Listing(server: Server, history: seq<Request>, entries: seq<Json>): (r: Traced<seq<Json>>)
    ensures r.value.Ok? ==> |r.value.value| == |entries|
    ensures |r.sent| <= |entries|
    ensures forall i :: 0 <= i < |r.sent| ==> r.sent[i].Download?
    decreases |entries|
  {
    if entries == [] then Traced(Ok([]), [])
    else
      var head := Entry(server, history, entries[0]);
      match head.value
      case Raise(e) => Traced(Raise(e), head.sent)
      case Ok(row) => Prepend([row], head.sent, Listing(server, history + head.sent, entries[1..]))
  }

  /** A listing that completes downloads exactly the downloadable entries, in order, and
      nothing else. */
  lemma {:induction false} ListingDownloads(server: Server, history: seq<Request>, entries: seq<Json>)
    requires Listing(server, history, entries).value.Ok?
    ensures Listing(server, history, entries).sent == Downloads(entries)
    decreases |entries|
  {
    if entries != [] {
      var head := Entry(server, history, entries[0]);
      ListingDownloads(server, history + head.sent, entries[1..]);
    }
  }

  /** The row of one entry describes it; its content is null unless the entry is
      downloadable, and then the downloaded text or null. */
  lemma EntryRow(server: Server, history: seq<Request>, entry: Json)
    requires Entry(server, history, entry).value.Ok?
    ensures var row := Entry(server, history, entry).value.value;
      || Describe(entry, Null) == Ok(row)
      || (Downloadable(entry) && exists text :: Describe(entry, Str(text)) == Ok(row))
  {
    var head := Entry(server, history, entry);
    if Downloadable(entry) {
      var res := server(history, head.sent[0]).reply;
      if res.status == 200 {
        assert Describe(entry, Str(res.text)) == head.value;
      }
    }
  }

  /** Every row of a completed listing describes the entry at the same position; its content
      is null unless that entry is downloadable, and then the downloaded text or null. */
  lemma {:induction false} ListingRows(server: Server, history: seq<Request>, entries: seq<Json>, i: nat)
    requires Listing(server, history, entries).value.Ok? && i < |entries|
    ensures var row := Listing(server, history, entries).value.value[i];
      || Describe(entries[i], Null) == Ok(row)
      || (Downloadable(entries[i]) && exists text :: Describe(entries[i], Str(text)) == Ok(row))
    decreases |entries|
  {
    var head := Entry(server, history, entries[0]);
    if i > 0 {
      ListingRows(server, history + head.sent, entries[1..], i - 1);
    } else {
      EntryRow(server, history, entries[0]);
    }
  }

  /** `{"repo": repo_name, "branch": branch, "path": path, key: value}`. */
  function ContentsBody(query: Query, key: string, value: Json): Json
    requires HasParam(query, "repo_name")
  {
    Dict([("repo", Str(query["repo_name"])), ("branch", Str(Param(query, "branch", "main"))),
          ("path", Str(Param(query, "path", ""))), (key, value)])
  }

  /** The contents request: the user's repository named by `repo_name`, at `path`
      (default the root) on `branch` (default "main"). */
  function ContentsRequest(token: string, user: Account, query: Query): (req: Request)
    requires HasParam(query, "repo_name")
    ensures req.GetContents? && req.token == token && req.owner == Show(user.username)
    ensures req.repo == query["repo_name"]
    ensures req.path == (if "path" in query then query["path"] else "")
    ensures req.ref == (if "branch" in query then query["branch"] else "main")
  {
    GetContents(token, Show(user.username), query["repo_name"], Param(query, "path", ""), Param(query, "branch", "main"))
  }

  /** What the view makes of the contents reply `t`; `history` already holds the contents request. */
  function Resolve(server: Server, history: seq<Request>, query: Query, t: Transport): (r: Traced<Outcome>)
    requires HasParam(query, "repo_name")
    // a connection error, or an undecodable body, is not caught
    ensures t.Failed? ==> r == Traced(Raise(Exc(ConnectionError, t.message)), [])
    ensures t.Answered? && t.reply.parsed.None? ==> r == Traced(Raise(Decode(t.reply).exc), [])
    // an error status is passed through with the decoded detail, and nothing is downloaded
    ensures t.Answered? && t.reply.parsed.Some? && t.reply.status != 200 ==>
      r == Traced(Ok(Response(t.reply.status, Dict([("error", Str("GitHub API error")), ("detail", t.reply.parsed.value)]))), [])
    // a directory is answered 200 with one row per entry, in order, after downloading exactly the
    // downloadable entries
    ensures t.Answered? && t.reply.status == 200 && t.reply.parsed.Some? && t.reply.parsed.value.List? &&
            Listing(server, history, t.reply.parsed.value.items).value.Ok? ==>
      var entries := t.reply.parsed.value.items;
      var rows := Listing(server, history, entries).value.value;
      && r.value == Ok(Response(200, ContentsBody(query, "files", List(rows))))
      && |rows| == |entries|
      && r.sent == Downloads(entries)
    // a directory whose listing fails fails the view, after the requests the listing issued
    ensures t.Answered? && t.reply.status == 200 && t.reply.parsed.Some? && t.reply.parsed.value.List? &&
            Listing(server, history, t.reply.parsed.value.items).value.Raise? ==>
      var listing := Listing(server, history, t.reply.parsed.value.items);
      r == Traced(Raise(listing.value.exc), listing.sent)
    // a single file is resolved as a directory entry is
    ensures t.Answered? && t.reply.status == 200 && t.reply.parsed.Some? && t.reply.parsed.value.Dict? &&
            At(t.reply.parsed.value, "type", Null) == Str("file") ==>
      var one := Entry(server, history, t.reply.parsed.value);
      && r.sent == one.sent
      && (one.value.Ok? ==> r.value == Ok(Response(200, ContentsBody(query, "file", one.value.value))))
      && (one.value.Raise? ==> r.value == Raise(one.value.exc))
    // anything that is neither a list nor a dict of type "file" is a 500, with no download
    ensures t.Answered? && t.reply.status == 200 && t.reply.parsed.Some? && !t.reply.parsed.value.List? &&
            !(t.reply.parsed.value.Dict? && At(t.reply.parsed.value, "type", Null) == Str("file")) ==>
      r == Traced(Ok(Response(500, Error("Unexpected GitHub API response"))), [])
    ensures forall i :: 0 <= i < |r.sent| ==> r.sent[i].Download?
  {
    match Deliver(t)
    case Raise(e) => Traced(Raise(e), [])
    case Ok(res) =>
      if res.status != 200 then
        // `res.json()` of an error reply is not guarded
        Traced(match Decode(res)
               case Ok(detail) => Ok(Response(res.status, Dict([("error", Str("GitHub API error")), ("detail", detail)])))
               case Raise(e) => Raise(e), [])
      else
        match Decode(res)
        case Raise(e) => Traced(Raise(e), [])
        case Ok(item) =>
          if item.List? then
            var listing := Listing(server, history, item.items);
            if listing.value.Ok? then
              ListingDownloads(server, history, item.items);
              Traced(Ok(Response(200, ContentsBody(query, "files", List(listing.value.value)))), listing.sent)
            else Traced(Raise(listing.value.exc), listing.sent)
          else if item.Dict? && At(item, "type", Null) == Str("file") then
            // `item["type"]` is then "file", so the single file is resolved as a directory entry is
            var one := Entry(server, history, item);
            Traced(match one.value
                   case Ok(file) => Ok(Response(200, ContentsBody(query, "file", file)))
                   case Raise(e) => Raise(e), one.sent)
          else Traced(Ok(Response(500, Error("Unexpected GitHub API response"))), [])
  }

  /** `GitHubRepoFileContentsView.get` against a GitHub that answers `server`, after `history`. */
  function RepoContents(server: Server, history: seq<Request>, crypto: Primitives, user: Account, query: Query): (r: Run)
    // a missing or empty repo_name is refused before the token is decrypted and before any call
    ensures !HasParam(query, "repo_name") ==>
      r == Run(Response(400, Error("Missing required parameter: repo_name")), [])
    ensures HasParam(query, "repo_name") && crypto.decrypt(user.accessToken).Raise? ==>
      r == Run(DecryptFailed(crypto.decrypt(user.accessToken).exc), [])
    // otherwise the first request is the contents request, and the rest are downloads
    ensures HasParam(query, "repo_name") && crypto.decrypt(user.accessToken).Ok? ==>
      && |r.sent| >= 1
      && r.sent[0] == ContentsRequest(crypto.decrypt(user.accessToken).value, user, query)
      && (forall i :: 1 <= i < |r.sent| ==> r.sent[i].Download?)
    // and the reply to it decides the rest
    ensures HasParam(query, "repo_name") && crypto.decrypt(user.accessToken).Ok? ==>
      var rest := Resolve(server, history + [r.sent[0]], query, server(history, r.sent[0]));
      r == Run(Settle(rest.value), [r.sent[0]] + rest.sent)
  {
    if !HasParam(query, "repo_name") then
      Run(Response(400, Error("Missing required parameter: repo_name")), [])
    else
      match crypto.decrypt(user.accessToken)
      case Raise(e) => Run(DecryptFailed(e), [])
      case Ok(token) =>
        var req := ContentsRequest(token, user, query);
        var rest := Resolve(server, history + [req], query, server(history, req));
        Run(Settle(rest.value), [req] + rest.sent)
  }

  /** Prepending in two steps is prepending once. */
  lemma PrependTwice(rows: seq<Json>, sent: seq<Request>, more: seq<Json>, moreSent: seq<Request>, t: Traced<seq<Json>>)
    ensures Prepend(rows, sent, Prepend(more, moreSent, t)) == Prepend(rows + more, sent + moreSent, t)
  {
    assert sent + (moreSent + t.sent) == sent + moreSent + t.sent;
    if t.value.Ok? {
      assert rows + (more + t.value.value) == rows + more + t.value.value;
    }
  }

  /** Prepending nothing leaves a listing as it is. */
  lemma PrependNothing(t: Traced<seq<Json>>)
    ensures Prepend([], [], t) == t
  {
    assert [] + t.sent == t.sent;
    if t.value.Ok? {
      assert [] + t.value.value == t.value.value;
    }
  }

  /** One step of the directory loop: the listing of `entries[i..]` is the entry at `i`
      followed by the listing of the entries after it, which sees the entry's download. */
  lemma ListingStep(server: Server, history: seq<Request>, entries: seq<Json>, i: nat)
    requires i < |entries|
    ensures var head := Entry(server, history, entries[i]);
      Listing(server, history, entries[i..]) ==
        if head.value.Raise? then Traced(Raise(head.value.exc), head.sent)
        else Prepend([head.value.value], head.sent, Listing(server, history + head.sent, entries[i + 1..]))
  {
    assert entries[i..][0] == entries[i] && entries[i..][1..] == entries[i + 1..];
  }

  /** The algebra of one turn: `here` is `head` followed by `rest`, as a listing step makes it. */
  lemma PrependStep(rows: seq<Json>, sent: seq<Request>, head: Traced<Json>, here: Traced<seq<Json>>,
                    rest: Traced<seq<Json>>)
    requires here == if head.value.Raise? then Traced(Raise(head.value.exc), head.sent)
                     else Prepend([head.value.value], head.sent, rest)
    ensures head.value.Raise? ==> Prepend(rows, sent, here) == Traced(Raise(head.value.exc), sent + head.sent)
    ensures head.value.Ok? ==> Prepend(rows, sent, here) == Prepend(rows + [head.value.value], sent + head.sent, rest)
  {
    if head.value.Ok? {
      PrependTwice(rows, sent, [head.value.value], head.sent, rest);
    }
  }

  /** One entry of a directory, as the loop body runs it. */
  method ResolveEntry(gh: Remote, entry: Json) returns (r: Py<Json>)
    modifies gh
    ensures var e := Entry(gh.server, old(gh.log), entry); r == e.value && gh.log == old(gh.log) + e.sent
  {
    var kind := Index(entry, "type");
    if kind.Raise? {
      return Raise(kind.exc);
    }
    var content := Null;
    if kind.value == Str("file") && Truthy(At(entry, "download_url", Null)) {
      var t := gh.Send(Download(At(entry, "download_url", Null)));
      if t.Failed? {
        return Raise(Exc(ConnectionError, t.message));
      }
      if t.reply.status == 200 {
        content := Str(t.reply.text);
      }
    }
    r := Describe(entry, content);
  }

  /** The directory loop: `files_data` built one entry after the other. */
  method ResolveDirectory(gh: Remote, entries: seq<Json>) returns (r: Py<seq<Json>>)
    modifies gh
    ensures var l := Listing(gh.server, old(gh.log), entries); r == l.value && gh.log == old(gh.log) + l.sent
  {
    ghost var log0 := gh.log;
    ghost var sent: seq<Request> := [];
    var rows: seq<Json> := [];
    var i := 0;
    assert entries[0..] == entries;
    PrependNothing(Listing(gh.server, gh.log, entries));
    while i < |entries|
      invariant 0 <= i <= |entries|
      invariant gh.log == log0 + sent
      invariant Listing(gh.server, log0, entries) == Prepend(rows, sent, Listing(gh.server, gh.log, entries[i..]))
    {
      ghost var head := Entry(gh.server, gh.log, entries[i]);
      ListingStep(gh.server, gh.log, entries, i);
      PrependStep(rows, sent, head, Listing(gh.server, gh.log, entries[i..]), Listing(gh.server, gh.log + head.sent, entries[i + 1..]));
      AppendTwice(log0, sent, head.sent);
      var row := ResolveEntry(gh, entries[i]);
      if row.Raise? {
        return Raise(row.exc);
      }
      rows := rows + [row.value];
      sent := sent + head.sent;
      i := i + 1;
    }
    assert entries[i..] == [];
    assert rows + [] == rows && sent + [] == sent;
    r := Ok(rows);
  }

  /** The handling of the contents reply, as the source runs it. */
  method ResolveReply(gh: Remote, query: Query, t: Transport) returns (out: Py<Outcome>)
    requires HasParam(query, "repo_name")
    modifies gh
    ensures var r := Resolve(gh.server, old(gh.log), query, t); out == r.value && gh.log == old(gh.log) + r.sent
  {
    if t.Failed? {
      return Raise(Exc(ConnectionError, t.message));
    }
    var res := t.reply;
    if res.status != 200 {
      if res.parsed.None? {
        return Raise(Decode(res).exc);
      }
      return Ok(Response(res.status, Dict([("error", Str("GitHub API error")), ("detail", res.parsed.value)])));
    }
    if res.parsed.None? {
      return Raise(Decode(res).exc);
    }
    var item := res.parsed.value;
    if item.List? {
      var files := ResolveDirectory(gh, item.items);
      if files.Raise? {
        return Raise(files.exc);
      }
      return Ok(Response(200, ContentsBody(query, "files", List(files.value))));
    } else if item.Dict? && At(item, "type", Null) == Str("file") {
      var file := ResolveEntry(gh, item);
      if file.Raise? {
        return Raise(file.exc);
      }
      return Ok(Response(200, ContentsBody(query, "file", file.value)));
    }
    out := Ok(Response(500, Error("Unexpected GitHub API response")));
  }

  /** The contents view, as the source runs it. */
  method RepoFileContents(gh: Remote, crypto: Primitives, user: Account, query: Query) returns (out: Outcome)
    modifies gh
    ensures var r := RepoContents(gh.server, old(gh.log), crypto, user, query);
      out == r.outcome && gh.log == old(gh.log) + r.sent
  {
    if !HasParam(query, "repo_name") {
      return Response(400, Error("Missing required parameter: repo_name"));
    }
    var dec := crypto.decrypt(user.accessToken);
    if dec.Raise? {
      return DecryptFailed(dec.exc);
    }
    var req := ContentsRequest(dec.value, user, query);
    var t := gh.Send(req);
    var rest := ResolveReply(gh, query, t);
    AppendTwice(old(gh.log), [req], Resolve(gh.server, old(gh.log) + [req], query, t).sent);
    out := Settle(rest);
  }
}
