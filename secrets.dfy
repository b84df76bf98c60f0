/** `GitHubUploadSecrets.post` (github/views/secrets.py): fetch the repository's public key
    once, then encrypt and store every secret, collecting the failures without stopping. */
module Secrets {
  import opened Json
  import opened Upstream
  import opened Crypto
  import opened Accounts
  import opened Http

  /** What every PUT of one request shares: the token, the repository, and the key fetched
      at the start (`key` to encrypt with, `keyId` to send along). */
  datatype Target = Target(token: string, owner: string, repo: string, key: Json, keyId: Json)

  /** One iteration of the loop: the secret's name, the request it issued (none when the
      encryption raised) and the entry it appended to `failed`, if any. */
  datatype Attempt = Attempt(name: string, sent: seq<Request>, failure: Option<Json>)

  /** The PUT statuses that count as stored. */
  predicate Stored(status: int) {
    status == 201 || status == 204
  }

  /** `{name: detail}`, the entry appended to `failed`. */
  function Failure(name: string, detail: Json): Json {
    Dict([(name, detail)])
  }

  /** `{"exception": str(e)}`. */
  function ExceptionDetail(e: Exc): Json {
    Dict([("exception", Str(e.message))])
  }

  /** The PUT of one encrypted secret. */
  function PutRequest(target: Target, name: string, encrypted: string): Request {
    PutSecret(target.token, target.owner, target.repo, name, encrypted, target.keyId)
  }

  /** The body of one iteration (secrets.py:70-86): every exception inside it is caught and
      recorded against the secret's name. */
  function AttemptOne(server: Server, history: seq<Request>, crypto: Primitives, target: Target, name: string, value: Json)
    : (a: Attempt)
    ensures a.name == name
    // a secret that does not encrypt is recorded as failed, and nothing is sent for it
    ensures crypto.seal(target.key, value).Raise? ==>
      a == Attempt(name, [], Some(Failure(name, ExceptionDetail(crypto.seal(target.key, value).exc))))
    // otherwise exactly one PUT, of the encrypted value, with the shared key id
    ensures crypto.seal(target.key, value).Ok? ==> a.sent == [PutRequest(target, name, crypto.seal(target.key, value).value)]
    // the secret is stored exactly when the PUT is answered 201 or 204
    ensures a.failure.None? <==>
      crypto.seal(target.key, value).Ok? && server(history, a.sent[0]).Answered? && Stored(server(history, a.sent[0]).reply.status)
    // a refused PUT records GitHub's decoded answer, or the decoding exception
    ensures a.sent != [] && server(history, a.sent[0]).Answered? && !Stored(server(history, a.sent[0]).reply.status) ==>
      var res := server(history, a.sent[0]).reply;
      a.failure == Some(Failure(name, if res.parsed.Some? then res.parsed.value else ExceptionDetail(Decode(res).exc)))
    // a PUT that raises records the exception
    ensures a.sent != [] && server(history, a.sent[0]).Failed? ==>
      a.failure == Some(Failure(name, ExceptionDetail(Exc(ConnectionError, server(history, a.sent[0]).message))))
  {
    match crypto.seal(target.key, value)
    case Raise(e) => Attempt(name, [], Some(Failure(name, ExceptionDetail(e))))
    case Ok(encrypted) =>
      var req := PutRequest(target, name, encrypted);
      match server(history, req)
      case Failed(m) => Attempt(name, [req], Some(Failure(name, ExceptionDetail(Exc(ConnectionError, m)))))
      case Answered(res) =>
        if Stored(res.status) then Attempt(name, [req], None)
        else
          match Decode(res)
          case Ok(detail) => Attempt(name, [req], Some(Failure(name, detail)))
          case Raise(e) => Attempt(name, [req], Some(Failure(name, ExceptionDetail(e))))
  }

  /** Every request of the attempts, in order. */
  function Flatten(attempts: seq<Attempt>): seq<Request> {
    if attempts == [] then []
    else Flatten(attempts[..|attempts| - 1]) + attempts[|attempts| - 1].sent
  }

  /** The `failed` list after the attempts: their failure entries, in order. */
  function Failures(attempts: seq<Attempt>): (failed: seq<Json>)
    ensures failed == [] <==> forall i :: 0 <= i < |attempts| ==> attempts[i].failure.None?
    ensures |failed| <= |attempts|
  {
    if attempts == [] then []
    else
      var init := attempts[..|attempts| - 1];
      assert forall i :: 0 <= i < |init| ==> init[i] == attempts[i];
      var last := attempts[|attempts| - 1];
      Failures(init) + (if last.failure.Some? then [last.failure.value] else [])
  }

  /** Entry `k` of `failed` is the failure of attempt `idx[k]`, the positions increase, and
      every attempt that failed has its position among them. */
  ghost predicate Positions(attempts: seq<Attempt>, failed: seq<Json>, idx: seq<nat>) {
    && |idx| == |failed|
    && (forall k :: 0 <= k < |idx| ==> idx[k] < |attempts| && attempts[idx[k]].failure == Some(failed[k]))
    && (forall k, l :: 0 <= k < l < |idx| ==> idx[k] < idx[l])
    && (forall i :: 0 <= i < |attempts| && attempts[i].failure.Some? ==> i in idx)
  }

  /** One more attempt: its failure, if any, goes at the end, at the next position. */
  lemma PositionsSnoc(attempts: seq<Attempt>, earlier: seq<Json>, idx: seq<nat>) returns (next: seq<nat>)
    requires attempts != []
    requires Positions(attempts[..|attempts| - 1], earlier, idx)
    ensures var last := attempts[|attempts| - 1];
      Positions(attempts, earlier + (if last.failure.Some? then [last.failure.value] else []), next)
  {
    var n := |attempts| - 1;
    var init := attempts[..n];
    assert forall i :: 0 <= i < n ==> init[i] == attempts[i];
    if attempts[n].failure.Some? {
      next := idx + [n];
      var failed := earlier + [attempts[n].failure.value];
      forall k | 0 <= k < |next|
        ensures next[k] < |attempts| && attempts[next[k]].failure == Some(failed[k])
      {
        if k < |idx| {
          assert next[k] == idx[k] && failed[k] == earlier[k];
        }
      }
      forall i | 0 <= i < |attempts| && attempts[i].failure.Some?
        ensures i in next
      {
        if i < n {
          assert init[i].failure.Some?;
          var k :| 0 <= k < |idx| && idx[k] == i;
          assert next[k] == i;
        } else {
          assert next[|idx|] == i;
        }
      }
    } else {
      next := idx;
      assert earlier + [] == earlier;
      forall i | 0 <= i < |attempts| && attempts[i].failure.Some?
        ensures i in next
      {
        assert i < n && init[i].failure.Some?;
      }
    }
  }

  /** `failed` holds exactly the failure entries of the attempts, in the order of the attempts:
      entry `k` comes from attempt `idx[k]`, the positions increase, and every attempt that
      failed has its position among them. */
  lemma {:induction false} FailuresInOrder(attempts: seq<Attempt>) returns (idx: seq<nat>)
    ensures |idx| == |Failures(attempts)|
    ensures forall k :: 0 <= k < |idx| ==> idx[k] < |attempts| && attempts[idx[k]].failure == Some(Failures(attempts)[k])
    ensures forall k, l :: 0 <= k < l < |idx| ==> idx[k] < idx[l]
    ensures forall i :: 0 <= i < |attempts| && attempts[i].failure.Some? ==> i in idx
    decreases |attempts|
  {
    if attempts == [] {
      idx := [];
    } else {
      var init := attempts[..|attempts| - 1];
      var before := FailuresInOrder(init);
      idx := PositionsSnoc(attempts, Failures(init), before);
    }
  }

  /** The loop over `secrets.items()`: one attempt per secret, each after the requests of the
      attempts before it. */
  function Attempts(server: Server, history: seq<Request>, crypto: Primitives, target: Target, items: seq<(string, Json)>)
    : (r: seq<Attempt>)
    ensures |r| == |items|
    decreases |items|
  {
    if items == [] then []
    else
      var a := AttemptOne(server, history, crypto, target, items[0].0, items[0].1);
      [a] + Attempts(server, history + a.sent, crypto, target, items[1..])
  }

  lemma {:induction false} FlattenCons(a: Attempt, rest: seq<Attempt>)
    ensures Flatten([a] + rest) == a.sent + Flatten(rest)
    decreases |rest|
  {
    if rest != [] {
      var n := |rest| - 1;
      assert ([a] + rest)[..|rest|] == [a] + rest[..n];
      FlattenCons(a, rest[..n]);
    } else {
      assert [a] + rest == [a];
      assert [a][..0] == [];
    }
  }

  /** Every secret is attempted exactly once, in iteration order, and none is skipped: an earlier
      failure never stops a later attempt, which sees exactly the requests issued before it. */
  lemma {:induction false} AttemptsInOrder(server: Server, history: seq<Request>, crypto: Primitives, target: Target,
                                           items: seq<(string, Json)>, i: nat)
    requires i < |items|
    ensures var r := Attempts(server, history, crypto, target, items);
      && r[i].name == items[i].0
      && r[i] == AttemptOne(server, history + Flatten(r[..i]), crypto, target, items[i].0, items[i].1)
    decreases i
  {
    var r := Attempts(server, history, crypto, target, items);
    var a := r[0];
    if i > 0 {
      var rest := Attempts(server, history + a.sent, crypto, target, items[1..]);
      AttemptsInOrder(server, history + a.sent, crypto, target, items[1..], i - 1);
      assert r == [a] + rest;
      assert r[..i] == [a] + rest[..i - 1];
      FlattenCons(a, rest[..i - 1]);
      assert history + Flatten(r[..i]) == history + a.sent + Flatten(rest[..i - 1]);
    } else {
      assert r[..0] == [] && Flatten([]) == [] && history + [] == history;
    }
  }

  /** Every request of the loop is a PUT of one of the secrets, with the one key id fetched at
      the start of the request. */
  lemma {:induction false} AttemptsSendPuts(server: Server, history: seq<Request>, crypto: Primitives, target: Target,
                                            items: seq<(string, Json)>)
    ensures var sent := Flatten(Attempts(server, history, crypto, target, items));
      forall q :: q in sent ==> q.PutSecret? && q.keyId == target.keyId && q.token == target.token &&
                                q.owner == target.owner && q.repo == target.repo
    decreases |items|
  {
    if items != [] {
      var a := AttemptOne(server, history, crypto, target, items[0].0, items[0].1);
      AttemptsSendPuts(server, history + a.sent, crypto, target, items[1..]);
      FlattenCons(a, Attempts(server, history + a.sent, crypto, target, items[1..]));
    } else {
      assert Flatten([]) == [];
    }
  }

  /** The names of the secrets that encrypt, in order: the independent account of which
      secrets reach GitHub. */
  function Encryptable(crypto: Primitives, key: Json, items: seq<(string, Json)>): seq<string> {
    if items == [] then []
    else (if crypto.seal(key, items[0].1).Ok? then [items[0].0] else []) + Encryptable(crypto, key, items[1..])
  }

  /** `secretName` of every request. */
  function PutNames(sent: seq<Request>): seq<string>
    requires forall q :: q in sent ==> q.PutSecret?
  {
    if sent == [] then [] else [sent[0].secretName] + PutNames(sent[1..])
  }

  lemma {:induction false} PutNamesAppend(a: seq<Request>, b: seq<Request>)
    requires forall q :: q in a + b ==> q.PutSecret?
    ensures PutNames(a + b) == PutNames(a) + PutNames(b)
    decreases |a|
  {
    if a != [] {
      assert (a + b)[1..] == a[1..] + b;
      PutNamesAppend(a[1..], b);
    } else {
      assert a + b == b;
    }
  }

  /** One PUT per secret that encrypts, in iteration order, and no other: at most one request
      per secret name. */
  lemma {:induction false} PutsFollowSecrets(server: Server, history: seq<Request>, crypto: Primitives, target: Target,
                                             items: seq<(string, Json)>)
    ensures var sent := Flatten(Attempts(server, history, crypto, target, items));
      (forall q :: q in sent ==> q.PutSecret?) && PutNames(sent) == Encryptable(crypto, target.key, items)
    decreases |items|
  {
    AttemptsSendPuts(server, history, crypto, target, items);
    if items != [] {
      var a := AttemptOne(server, history, crypto, target, items[0].0, items[0].1);
      var rest := Attempts(server, history + a.sent, crypto, target, items[1..]);
      PutsFollowSecrets(server, history + a.sent, crypto, target, items[1..]);
      FlattenCons(a, rest);
      PutNamesAppend(a.sent, Flatten(rest));
    } else {
      assert Flatten([]) == [];
    }
  }

  /** The 201 answer: every input secret name, in order, and the repository's secrets page. */
  function Uploaded(owner: string, repo: string, secrets: seq<(string, Json)>): Outcome {
    var names := Keys(secrets);
    Response(201, Dict([
      ("message", Str("Secrets uploaded to '" + repo + "'")),
      ("secrets", List(seq(|names|, i requires 0 <= i < |names| => Str(names[i])))),
      ("github_url", Str("https://github.com/" + owner + "/" + repo + "/settings/secrets/actions"))]))
  }

  /** The 207 answer carrying the failures. */
  function PartlyFailed(failed: seq<Json>): Outcome {
    Response(207, Dict([("error", Str("Some secrets failed to upload")), ("detail", List(failed))]))
  }

  /** What the view does once the public-key reply `t` has arrived (secrets.py:44-98); `history`
      already holds the key request. */
  function AfterKey(server: Server, history: seq<Request>, crypto: Primitives, token: string, owner: string,
                    repo: string, secrets: Json, t: Transport): (r: Traced<Outcome>)
    ensures t.Failed? ==> r == Traced(Raise(Exc(ConnectionError, t.message)), [])
    // a key reply that is not JSON is a 502 with the raw text, and no secret is sent
    ensures t.Answered? && t.reply.parsed.None? ==>
      r == Traced(Ok(Response(502, Dict([("error", Str("GitHub returned non-JSON response while fetching public key")),
                                         ("raw_response", Str(t.reply.text))]))), [])
    // a JSON error status is passed through, and no secret is sent
    ensures t.Answered? && t.reply.parsed.Some? && t.reply.status != 200 ==>
      r == Traced(Ok(Response(t.reply.status, Dict([("error", Str("Failed to fetch public key")),
                                                    ("status_code", Int(t.reply.status)),
                                                    ("detail", t.reply.parsed.value)]))), [])
    // a key reply without a key or a key id is a 502, before any secret is processed
    ensures t.Answered? && t.reply.parsed.Some? && t.reply.status == 200 && t.reply.parsed.value.Dict? &&
            (!Truthy(At(t.reply.parsed.value, "key", Null)) || !Truthy(At(t.reply.parsed.value, "key_id", Null))) ==>
      r == Traced(Ok(Response(502, Dict([("error", Str("Invalid public key response from GitHub")),
                                         ("detail", t.reply.parsed.value)]))), [])
    // with a valid key, secrets that are not a dict have no `items`; nothing is sent
    ensures r.sent != [] ==> secrets.Dict?
    ensures t.Answered? && t.reply.parsed.Some? && t.reply.status == 200 && t.reply.parsed.value.Dict? &&
            Truthy(At(t.reply.parsed.value, "key", Null)) && Truthy(At(t.reply.parsed.value, "key_id", Null)) &&
            !secrets.Dict? ==>
      r == Traced(Raise(Exc(AttributeError, "object has no attribute 'items'")), [])
    // otherwise one attempt per secret; 207 with the failures if there are any, else 201 with every name
    ensures t.Answered? && t.reply.parsed.Some? && t.reply.status == 200 && t.reply.parsed.value.Dict? &&
            Truthy(At(t.reply.parsed.value, "key", Null)) && Truthy(At(t.reply.parsed.value, "key_id", Null)) &&
            secrets.Dict? ==>
      var target := Target(token, owner, repo, At(t.reply.parsed.value, "key", Null), At(t.reply.parsed.value, "key_id", Null));
      var attempts := Attempts(server, history, crypto, target, Items(secrets.fields));
      && r.sent == Flatten(attempts)
      && r.value == Ok(if Failures(attempts) != [] then PartlyFailed(Failures(attempts)) else Uploaded(owner, repo, secrets.fields))
  {
    match Deliver(t)
    case Raise(e) => Traced(Raise(e), [])
    case Ok(res) =>
      match res.parsed
      case None =>
        Traced(Ok(Response(502, Dict([("error", Str("GitHub returned non-JSON response while fetching public key")),
                                      ("raw_response", Str(res.text))]))), [])
      case Some(keyData) =>
        if res.status != 200 then
          Traced(Ok(Response(res.status, Dict([("error", Str("Failed to fetch public key")),
                                               ("status_code", Int(res.status)), ("detail", keyData)]))), [])
        else
          match Get(keyData, "key")
          case Raise(e) => Traced(Raise(e), [])
          case Ok(key) =>
            var keyId := At(keyData, "key_id", Null);
            if !Truthy(key) || !Truthy(keyId) then
              Traced(Ok(Response(502, Dict([("error", Str("Invalid public key response from GitHub")),
                                            ("detail", keyData)]))), [])
            else
              match secrets
              case Dict(fields) =>
                var attempts := Attempts(server, history, crypto, Target(token, owner, repo, key, keyId), Items(fields));
                var failed := Failures(attempts);
                Traced(Ok(if failed != [] then PartlyFailed(failed) else Uploaded(owner, repo, fields)), Flatten(attempts))
              case _ => Traced(Raise(Exc(AttributeError, "object has no attribute 'items'")), [])
  }

  /** `GitHubUploadSecrets.post` with the decoded request body `data`. */
  function UploadSecrets(server: Server, history: seq<Request>, crypto: Primitives, user: Account, data: Json): (r: Run)
    ensures !data.Dict? ==> r.outcome.Unhandled? && r.sent == []
    // a missing repo_name or empty secrets is refused before decryption and before any call
    ensures data.Dict? && (!Truthy(At(data, "repo_name", Null)) || !Truthy(At(data, "secrets", Null))) ==>
      r == Run(Response(400, Error("Missing required fields (repo_name, secrets)")), [])
    ensures data.Dict? && Truthy(At(data, "repo_name", Null)) && Truthy(At(data, "secrets", Null)) &&
            crypto.decrypt(user.accessToken).Raise? ==>
      r == Run(DecryptFailed(crypto.decrypt(user.accessToken).exc), [])
    // otherwise the public key is fetched first, once, and its reply decides the rest
    ensures data.Dict? && Truthy(At(data, "repo_name", Null)) && Truthy(At(data, "secrets", Null)) &&
            crypto.decrypt(user.accessToken).Ok? ==>
      var token := crypto.decrypt(user.accessToken).value;
      var owner := Show(user.username);
      var repo := Show(At(data, "repo_name", Null));
      var req := GetPublicKey(token, owner, repo);
      var rest := AfterKey(server, history + [req], crypto, token, owner, repo, At(data, "secrets", Null), server(history, req));
      r == Run(Settle(rest.value), [req] + rest.sent)
  {
    match Get(data, "repo_name")
    case Raise(e) => Run(Unhandled(e), [])
    case Ok(repoName) =>
      var secrets := At(data, "secrets", Null);
      if !Truthy(repoName) || !Truthy(secrets) then
        Run(Response(400, Error("Missing required fields (repo_name, secrets)")), [])
      else
        match crypto.decrypt(user.accessToken)
        case Raise(e) => Run(DecryptFailed(e), [])
        case Ok(token) =>
          var owner := Show(user.username);
          var repo := Show(repoName);
          var req := GetPublicKey(token, owner, repo);
          var rest := AfterKey(server, history + [req], crypto, token, owner, repo, secrets, server(history, req));
          Run(Settle(rest.value), [req] + rest.sent)
  }

  // ---------------------------------------------------------------- the view as it runs

  /** One iteration of the loop, with its try/except. */
  method AttemptSecret(gh: Remote, crypto: Primitives, target: Target, name: string, value: Json)
    returns (failure: Option<Json>)
    modifies gh
    ensures var a := AttemptOne(gh.server, old(gh.log), crypto, target, name, value);
      failure == a.failure && gh.log == old(gh.log) + a.sent
  {
    var encrypted := crypto.seal(target.key, value);
    if encrypted.Raise? {
      return Some(Failure(name, ExceptionDetail(encrypted.exc)));
    }
    var t := gh.Send(PutRequest(target, name, encrypted.value));
    if t.Failed? {
      return Some(Failure(name, ExceptionDetail(Exc(ConnectionError, t.message))));
    }
    failure := None;
    if !Stored(t.reply.status) {
      var detail := Decode(t.reply);
      failure := Some(Failure(name, if detail.Ok? then detail.value else ExceptionDetail(detail.exc)));
    }
  }

  /** The loop over `secrets.items()`: attempts every secret and collects the failures. */
  method AttemptAll(gh: Remote, crypto: Primitives, target: Target, items: seq<(string, Json)>)
    returns (failed: seq<Json>)
    modifies gh
    ensures var attempts := Attempts(gh.server, old(gh.log), crypto, target, items);
      failed == Failures(attempts) && gh.log == old(gh.log) + Flatten(attempts)
  {
    ghost var log0 := gh.log;
    ghost var attempts := Attempts(gh.server, log0, crypto, target, items);
    failed := [];
    var i := 0;
    assert attempts[..0] == [];
    while i < |items|
      invariant 0 <= i <= |items|
      invariant gh.log == log0 + Flatten(attempts[..i])
      invariant failed == Failures(attempts[..i])
    {
      AttemptsInOrder(gh.server, log0, crypto, target, items, i);
      var failure := AttemptSecret(gh, crypto, target, items[i].0, items[i].1);
      assert attempts[..i + 1][..i] == attempts[..i];
      assert gh.log == log0 + Flatten(attempts[..i + 1]);
      if failure.Some? {
        failed := failed + [failure.value];
      }
      i := i + 1;
    }
    assert attempts[..i] == attempts;
  }

  /** The part of the view after the public-key request, as the source runs it. */
  method AfterKeyView(gh: Remote, crypto: Primitives, token: string, owner: string, repo: string, secrets: Json,
                      t: Transport) returns (out: Py<Outcome>)
    modifies gh
    ensures var r := AfterKey(gh.server, old(gh.log), crypto, token, owner, repo, secrets, t);
      out == r.value && gh.log == old(gh.log) + r.sent
  {
    if t.Failed? {
      return Raise(Exc(ConnectionError, t.message));
    }
    var res := t.reply;
    if res.parsed.None? {
      return Ok(Response(502, Dict([("error", Str("GitHub returned non-JSON response while fetching public key")),
                                    ("raw_response", Str(res.text))])));
    }
    var keyData := res.parsed.value;
    if res.status != 200 {
      return Ok(Response(res.status, Dict([("error", Str("Failed to fetch public key")),
                                           ("status_code", Int(res.status)), ("detail", keyData)])));
    }
    var key := Get(keyData, "key");
    if key.Raise? {
      return Raise(key.exc);
    }
    var keyId := At(keyData, "key_id", Null);
    if !Truthy(key.value) || !Truthy(keyId) {
      return Ok(Response(502, Dict([("error", Str("Invalid public key response from GitHub")), ("detail", keyData)])));
    }
    if !secrets.Dict? {
      return Raise(Exc(AttributeError, "object has no attribute 'items'"));
    }
    var failed := AttemptAll(gh, crypto, Target(token, owner, repo, key.value, keyId), Items(secrets.fields));
    if failed != [] {
      return Ok(PartlyFailed(failed));
    }
    out := Ok(Uploaded(owner, repo, secrets.fields));
  }

  /** The public-key request and everything after it. */
  method FetchKeyAndUpload(gh: Remote, crypto: Primitives, token: string, owner: string, repo: string, secrets: Json)
    returns (out: Outcome)
    modifies gh
    ensures var req := GetPublicKey(token, owner, repo);
      var rest := AfterKey(gh.server, old(gh.log) + [req], crypto, token, owner, repo, secrets, gh.server(old(gh.log), req));
      out == Settle(rest.value) && gh.log == old(gh.log) + ([req] + rest.sent)
  {
    var req := GetPublicKey(token, owner, repo);
    var t := gh.Send(req);
    ghost var log1 := gh.log;
    var rest := AfterKeyView(gh, crypto, token, owner, repo, secrets, t);
    AppendTwice(old(gh.log), [req], AfterKey(gh.server, log1, crypto, token, owner, repo, secrets, t).sent);
    out := Settle(rest);
  }

  /** The view, as the source runs it. */
  method UploadSecretsView(gh: Remote, crypto: Primitives, user: Account, data: Json) returns (out: Outcome)
    modifies gh
    ensures var r := UploadSecrets(gh.server, old(gh.log), crypto, user, data);
      out == r.outcome && gh.log == old(gh.log) + r.sent
  {
    var repoName := Get(data, "repo_name");
    if repoName.Raise? {
      return Unhandled(repoName.exc);
    }
    var secrets := At(data, "secrets", Null);
    if !Truthy(repoName.value) || !Truthy(secrets) {
      return Response(400, Error("Missing required fields (repo_name, secrets)"));
    }
    var dec := crypto.decrypt(user.accessToken);
    if dec.Raise? {
      return DecryptFailed(dec.exc);
    }
    out := FetchKeyAndUpload(gh, crypto, dec.value, Show(user.username), Show(repoName.value), secrets);
  }
}
