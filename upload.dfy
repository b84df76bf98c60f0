/** `GitHubUploadFiles.post` (github/views/upload.py): check that the branch exists, then PUT
    the submitted files one after the other, stopping at the first bad entry or refused PUT. */
module Upload {
  import opened Json
  import opened Upstream
  import opened Crypto
  import opened Accounts
  import opened Http

  /** What every PUT of one request shares: the token, the repository, and the commit
      message and branch exactly as submitted. */
  datatype Commit = Commit(token: string, owner: string, repo: string, message: Json, branch: Json)

  /** The answer once every file is uploaded. */
  function FilesUploaded(): Outcome {
    Response(201, Dict([("message", Str("Files uploaded successfully"))]))
  }

  /** The answer to an entry without a path or with a null content. */
  function InvalidEntry(): Outcome {
    Response(400, Error("Each file must include 'path' and 'content'"))
  }

  /** An entry that is refused before anything is sent for it: a dict whose path is falsy or
      whose content is missing or null. */
  predicate Rejected(file: Json) {
    file.Dict? && (!Truthy(At(file, "path", Null)) || At(file, "content", Null) == Null)
  }

  /** An entry that is uploaded: a dict with a truthy path and a string content. */
  predicate Ready(file: Json) {
    file.Dict? && Truthy(At(file, "path", Null)) && At(file, "content", Null).Str?
  }

  /** The PUT of a ready entry (upload.py:55-63): its path, the base64 of its content, the shared message and branch. */
  function PutOf(commit: Commit, crypto: Primitives, file: Json): (r: Request)
    // every PUT of one request carries the submitted message and branch, to the same repository
    ensures r.PutFile? && r.token == commit.token && r.owner == commit.owner && r.repo == commit.repo
    ensures r.message == commit.message && r.branch == commit.branch
    // a ready entry is written at its own path with the base64 of its own content
    ensures Ready(file) ==>
      r.path == Show(At(file, "path", Null)) && r.content == crypto.base64(At(file, "content", Null).s)
  {
    var path := if file.Dict? then At(file, "path", Null) else Null;
    var content := if file.Dict? then At(file, "content", Null) else Null;
    PutFile(commit.token, commit.owner, commit.repo, Show(path), commit.message,
            crypto.base64(if content.Str? then content.s else ""), commit.branch)
  }

  /** The PUTs of entries, in order. */
  function PutsOf(commit: Commit, crypto: Primitives, files: seq<Json>): seq<Request> {
    Each((file: Json) => PutOf(commit, crypto, file), files)
  }

  /** A PUT status that counts as written. */
  predicate Accepted(t: Transport) {
    t.Answered? && (t.reply.status == 200 || t.reply.status == 201)
  }

  /** One iteration of the loop (upload.py:48-69): `Ok(None)` to go on with the next file,
      `Ok(Some(o))` to return `o`, or an exception that escapes the view. */
  function PutOne(server: Server, history: seq<Request>, crypto: Primitives, commit: Commit, file: Json)
    : (r: Traced<Option<Outcome>>)
    // a bad entry stops the loop before anything is sent for it
    ensures Rejected(file) ==> r == Traced(Ok(Some(InvalidEntry())), [])
    // a ready entry is PUT once; an accepted PUT goes on
    ensures Ready(file) ==> r.sent == [PutOf(commit, crypto, file)]
    // only an accepted PUT of a ready entry lets the loop go on
    ensures !Ready(file) ==> r.sent == []
    // an entry that is neither raises (not a dict, or a content that is not a string)
    ensures !Ready(file) && !Rejected(file) ==> r.value.Raise?
    ensures r.value == Ok(None) <==> Ready(file) && Accepted(server(history, r.sent[0]))
    // a refused PUT returns GitHub's status and body, naming the path
    ensures Ready(file) && r.value.Ok? && r.value.value.Some? ==>
      var t := server(history, r.sent[0]);
      && t.Answered? && t.reply.parsed.Some?
      && r.value.value.value == Response(t.reply.status,
           Dict([("error", Str("Failed to upload '" + Show(At(file, "path", Null)) + "'")), ("detail", t.reply.parsed.value)]))
    // and every refused PUT whose reply is JSON is answered so
    ensures Ready(file) ==>
      var t := server(history, PutOf(commit, crypto, file));
      t.Answered? && !Accepted(t) && t.reply.parsed.Some? ==>
        r.value == Ok(Some(Response(t.reply.status,
          Dict([("error", Str("Failed to upload '" + Show(At(file, "path", Null)) + "'")), ("detail", t.reply.parsed.value)]))))
    // a connection error, or a refused PUT whose reply is not JSON, raises out of the view
    ensures Ready(file) ==>
      var t := server(history, PutOf(commit, crypto, file));
      && (t.Failed? ==> r.value == Raise(Exc(ConnectionError, t.message)))
      && (t.Answered? && !Accepted(t) && t.reply.parsed.None? ==> r.value.Raise?)
  {
    match Get(file, "path")
    case Raise(e) => Traced(Raise(e), [])
    case Ok(path) =>
      var content := At(file, "content", Null);
      if !Truthy(path) || content == Null then Traced(Ok(Some(InvalidEntry())), [])
      else if !content.Str? then Traced(Raise(Exc(AttributeError, "object has no attribute 'encode'")), [])
      else
        var req := PutFile(commit.token, commit.owner, commit.repo, Show(path), commit.message,
                           crypto.base64(content.s), commit.branch);
        match server(history, req)
        case Failed(m) => Traced(Raise(Exc(ConnectionError, m)), [req])
        case Answered(res) =>
          if res.status == 200 || res.status == 201 then Traced(Ok(None), [req])
          else
            match Decode(res)
            case Raise(e) => Traced(Raise(e), [req])
            case Ok(detail) =>
              Traced(Ok(Some(Response(res.status, Dict([("error", Str("Failed to upload '" + Show(path) + "'")),
                                                        ("detail", detail)])))), [req])
  }

  /** The loop body, for each file and the log before it. */
  function Put(server: Server, crypto: Primitives, commit: Commit): (seq<Request>, Json) -> Traced<Option<Outcome>> {
    (history, file) => PutOne(server, history, crypto, commit, file)
  }

  /** The requests of the upload loop are the PUTs of its first `k` files, in order. */
  lemma PutsPrefix(server: Server, history: seq<Request>, crypto: Primitives, commit: Commit, files: seq<Json>)
    ensures exists k ::
      && 0 <= k <= |files|
      && Loop(Put(server, crypto, commit), FilesUploaded(), history, files).sent == PutsOf(commit, crypto, files[..k])
  {
    var g := (file: Json) => PutOf(commit, crypto, file);
    LoopSendsEach(Put(server, crypto, commit), FilesUploaded(), history, files, g);
  }

  /** The loop over the files (upload.py:47-73). */
  function PutAll(server: Server, history: seq<Request>, crypto: Primitives, commit: Commit, files: seq<Json>)
    : (r: Traced<Outcome>)
    // the loop PUTs the files in order, each at most once, and none after the one it stops at
    ensures exists k :: 0 <= k <= |files| && r.sent == PutsOf(commit, crypto, files[..k])
  {
    PutsPrefix(server, history, crypto, commit, files);
    Loop(Put(server, crypto, commit), FilesUploaded(), history, files)
  }

  /** The upload loop is fail-fast. It goes on past the first `k` files: each is a ready entry
      whose PUT, issued after the PUTs of the files before it, was accepted. Then it answers 201
      when there is no file left, and otherwise what the iteration for file `k` answers, after
      the PUTs of the files before it. */
  lemma PutAllFailFast(server: Server, history: seq<Request>, crypto: Primitives, commit: Commit, files: seq<Json>)
    returns (k: nat)
    ensures k <= |files|
    ensures forall j :: 0 <= j < k ==>
      Ready(files[j]) && Accepted(server(history + PutsOf(commit, crypto, files[..j]), PutOf(commit, crypto, files[j])))
    ensures k == |files| ==> PutAll(server, history, crypto, commit, files) == Traced(Ok(FilesUploaded()), PutsOf(commit, crypto, files))
    ensures k < |files| ==>
      var before := PutsOf(commit, crypto, files[..k]);
      var s := PutOne(server, history + before, crypto, commit, files[k]);
      && s.value != Ok(None)
      && PutAll(server, history, crypto, commit, files).sent == before + s.sent
      && PutAll(server, history, crypto, commit, files).value == (if s.value.Raise? then Raise(s.value.exc) else Ok(s.value.value.value))
  {
    var step := Put(server, crypto, commit);
    var g := (file: Json) => PutOf(commit, crypto, file);
    k := LoopStops(step, FilesUploaded(), history, files);
    forall j | 0 <= j < k
      ensures Ready(files[j]) && Accepted(server(history + PutsOf(commit, crypto, files[..j]), PutOf(commit, crypto, files[j])))
    {
      PriorEach(step, history, files, g, j);
      var h := history + Prior(step, history, files, j);
      assert PutOne(server, h, crypto, commit, files[j]).value == Ok(None);
    }
    PriorEach(step, history, files, g, k);
  }

  /** The answer to a branch that does not exist. */
  function NoSuchBranch(branch: Json): Outcome {
    Response(400, Error("Branch '" + Show(branch) + "' does not exist. Please create it first."))
  }

  /** What the view does once the branch-ref reply `t` has arrived (upload.py:41-73); `history`
      already holds the branch-ref request. */
  function AfterBranch(server: Server, history: seq<Request>, crypto: Primitives, commit: Commit, files: Json, t: Transport)
    : (r: Traced<Outcome>)
    ensures t.Failed? ==> r == Traced(Raise(Exc(ConnectionError, t.message)), [])
    // a branch that does not answer 200 is refused, and no file is PUT
    ensures t.Answered? && t.reply.status != 200 ==> r == Traced(Ok(NoSuchBranch(commit.branch)), [])
    // otherwise the files are uploaded in submission order
    ensures t.Answered? && t.reply.status == 200 && files.List? ==>
      r == PutAll(server, history, crypto, commit, files.items)
    // files that are not a list are not iterable, or yield keys or characters that have no
    // `get`: either way the view raises before any PUT
    ensures t.Answered? && t.reply.status == 200 && Truthy(files) && !files.List? ==> r.value.Raise? && r.sent == []
  {
    match Deliver(t)
    case Raise(e) => Traced(Raise(e), [])
    case Ok(res) =>
      if res.status != 200 then Traced(Ok(NoSuchBranch(commit.branch)), [])
      else
        match Iter(files)
        case Raise(e) => Traced(Raise(e), [])
        case Ok(entries) => PutAll(server, history, crypto, commit, entries)
  }

  /** `GitHubUploadFiles.post` with the decoded request body `data`. */
  function UploadFiles(server: Server, history: seq<Request>, crypto: Primitives, user: Account, data: Json): (r: Run)
    // the token is decrypted first: a failure is a 400 before the fields are looked at
    ensures crypto.decrypt(user.accessToken).Raise? ==>
      r == Run(DecryptFailed(crypto.decrypt(user.accessToken).exc), [])
    ensures crypto.decrypt(user.accessToken).Ok? && !data.Dict? ==> r.outcome.Unhandled? && r.sent == []
    // a missing repo_name, branch or commit_message, or no files, is a 400 before any call
    ensures crypto.decrypt(user.accessToken).Ok? && data.Dict? &&
            !(Truthy(At(data, "repo_name", Null)) && Truthy(At(data, "branch", Null)) &&
              Truthy(At(data, "commit_message", Null)) && Truthy(At(data, "files", List([])))) ==>
      r == Run(Response(400, Error("Missing required fields")), [])
    // otherwise the branch is looked up first, and its reply decides the rest
    ensures crypto.decrypt(user.accessToken).Ok? && data.Dict? &&
            Truthy(At(data, "repo_name", Null)) && Truthy(At(data, "branch", Null)) &&
            Truthy(At(data, "commit_message", Null)) && Truthy(At(data, "files", List([]))) ==>
      var commit := Commit(crypto.decrypt(user.accessToken).value, Show(user.username), Show(At(data, "repo_name", Null)),
                           At(data, "commit_message", Null), At(data, "branch", Null));
      var req := GetBranchRef(commit.token, commit.owner, commit.repo, Show(commit.branch));
      var rest := AfterBranch(server, history + [req], crypto, commit, At(data, "files", List([])), server(history, req));
      r == Run(Settle(rest.value), [req] + rest.sent)
  {
    match crypto.decrypt(user.accessToken)
    case Raise(e) => Run(DecryptFailed(e), [])
    case Ok(token) =>
      match Get(data, "repo_name")
      case Raise(e) => Run(Unhandled(e), [])
      case Ok(repo) =>
        var branch := At(data, "branch", Null);
        var message := At(data, "commit_message", Null);
        var files := At(data, "files", List([]));
        if !(Truthy(repo) && Truthy(branch) && Truthy(message) && Truthy(files)) then
          Run(Response(400, Error("Missing required fields")), [])
        else
          var commit := Commit(token, Show(user.username), Show(repo), message, branch);
          var req := GetBranchRef(token, commit.owner, commit.repo, Show(branch));
          var rest := AfterBranch(server, history + [req], crypto, commit, files, server(history, req));
          Run(Settle(rest.value), [req] + rest.sent)
  }

  // ---------------------------------------------------------------- the view as it runs

  /** One iteration of the loop, as the source runs it. */
  method PutFileEntry(gh: Remote, crypto: Primitives, commit: Commit, file: Json) returns (r: Py<Option<Outcome>>)
    modifies gh
    ensures var step := Put(gh.server, crypto, commit)(old(gh.log), file); r == step.value && gh.log == old(gh.log) + step.sent
  {
    var path := Get(file, "path");
    if path.Raise? {
      return Raise(path.exc);
    }
    var content := At(file, "content", Null);
    if !Truthy(path.value) || content == Null {
      return Ok(Some(InvalidEntry()));
    }
    if !content.Str? {
      return Raise(Exc(AttributeError, "object has no attribute 'encode'"));
    }
    var encoded := crypto.base64(content.s);
    var t := gh.Send(PutFile(commit.token, commit.owner, commit.repo, Show(path.value), commit.message, encoded, commit.branch));
    if t.Failed? {
      return Raise(Exc(ConnectionError, t.message));
    }
    if t.reply.status == 200 || t.reply.status == 201 {
      return Ok(None);
    }
    var detail := Decode(t.reply);
    if detail.Raise? {
      return Raise(detail.exc);
    }
    r := Ok(Some(Response(t.reply.status, Dict([("error", Str("Failed to upload '" + Show(path.value) + "'")),
                                                ("detail", detail.value)]))));
  }

  /** The loop of the view, as the source runs it: the iterations in order until one does not
      go on, which is the `i`-th when `i < |files|`. */
  method PutEach(gh: Remote, crypto: Primitives, commit: Commit, files: seq<Json>)
    returns (stop: Py<Option<Outcome>>, i: nat)
    modifies gh
    ensures var step := Put(gh.server, crypto, commit);
      && i <= |files|
      && (forall j :: 0 <= j < i ==> step(old(gh.log) + Prior(step, old(gh.log), files, j), files[j]).value == Ok(None))
      && (i == |files| ==> stop == Ok(None) && gh.log == old(gh.log) + Prior(step, old(gh.log), files, i))
      && (i < |files| ==>
            var t := step(old(gh.log) + Prior(step, old(gh.log), files, i), files[i]);
            stop == t.value && stop != Ok(None) && gh.log == old(gh.log) + Prior(step, old(gh.log), files, i) + t.sent)
  {
    ghost var log0 := gh.log;
    ghost var step := Put(gh.server, crypto, commit);
    assert log0 + [] == log0;
    i := 0;
    while i < |files|
      invariant i <= |files|
      invariant forall j :: 0 <= j < i ==> step(log0 + Prior(step, log0, files, j), files[j]).value == Ok(None)
      invariant gh.log == log0 + Prior(step, log0, files, i)
    {
      LoopAdvance(step, log0, files, i, gh.log);
      stop := PutFileEntry(gh, crypto, commit, files[i]);
      if stop != Ok(None) {
        return;
      }
      i := i + 1;
    }
    stop := Ok(None);
  }

  /** The upload loop: the files in order, returning at the first entry that ends the view. */
  method PutFiles(gh: Remote, crypto: Primitives, commit: Commit, files: seq<Json>) returns (r: Py<Outcome>)
    modifies gh
    ensures var all := PutAll(gh.server, old(gh.log), crypto, commit, files); r == all.value && gh.log == old(gh.log) + all.sent
  {
    ghost var step := Put(gh.server, crypto, commit);
    var stop, i := PutEach(gh, crypto, commit, files);
    if stop == Ok(None) {
      LoopAnswersDone(step, FilesUploaded(), old(gh.log), files);
      r := Ok(FilesUploaded());
    } else {
      LoopAnswersAt(step, FilesUploaded(), old(gh.log), files, i);
      r := if stop.Raise? then Raise(stop.exc) else Ok(stop.value.value);
    }
  }

  /** The part of the view after the branch-ref request, as the source runs it. */
  method AfterBranchView(gh: Remote, crypto: Primitives, commit: Commit, files: Json, t: Transport) returns (r: Py<Outcome>)
    modifies gh
    ensures var rest := AfterBranch(gh.server, old(gh.log), crypto, commit, files, t); r == rest.value && gh.log == old(gh.log) + rest.sent
  {
    if t.Failed? {
      return Raise(Exc(ConnectionError, t.message));
    }
    if t.reply.status != 200 {
      return Ok(NoSuchBranch(commit.branch));
    }
    var entries := Iter(files);
    if entries.Raise? {
      return Raise(entries.exc);
    }
    r := PutFiles(gh, crypto, commit, entries.value);
  }

  /** The view, as the source runs it. */
  method UploadFilesView(gh: Remote, crypto: Primitives, user: Account, data: Json) returns (out: Outcome)
    modifies gh
    ensures var r := UploadFiles(gh.server, old(gh.log), crypto, user, data);
      out == r.outcome && gh.log == old(gh.log) + r.sent
  {
    var dec := crypto.decrypt(user.accessToken);
    if dec.Raise? {
      return DecryptFailed(dec.exc);
    }
    var repo := Get(data, "repo_name");
    if repo.Raise? {
      return Unhandled(repo.exc);
    }
    var branch := At(data, "branch", Null);
    var message := At(data, "commit_message", Null);
    var files := At(data, "files", List([]));
    if !(Truthy(repo.value) && Truthy(branch) && Truthy(message) && Truthy(files)) {
      return Response(400, Error("Missing required fields"));
    }
    var commit := Commit(dec.value, Show(user.username), Show(repo.value), message, branch);
    var req := GetBranchRef(dec.value, commit.owner, commit.repo, Show(branch));
    var t := gh.Send(req);
    ghost var log1 := gh.log;
    var rest := AfterBranchView(gh, crypto, commit, files, t);
    AppendTwice(old(gh.log), [req], AfterBranch(gh.server, log1, crypto, commit, files, t).sent);
    out := Settle(rest);
  }
}
