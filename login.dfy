/** `GitHubLogin.post` (login/views.py): exchange the OAuth code for an access token, read the
    GitHub identity, pick an email when the profile has none, then create or refresh the
    local account and hand out the JWT pair. */
module Login {
  import opened Json
  import opened Upstream
  import opened Crypto
  import opened Accounts
  import opened Http

  /** `get_tokens_for_user(user)`: the JWT pair for an account. It belongs to the JWT library,
      so it is a parameter of the model. */
  type Issuer = Account -> Json

  /** A sign-in attempt: the outcome, the upstream requests in order, and the user table after it. */
  datatype Visit = Visit(outcome: Outcome, sent: seq<Request>, accounts: map<string, Account>, nextId: nat)

  function CodeRequired(): Outcome {
    Response(400, Error("code is required"))
  }

  /** The answer to a code GitHub does not exchange, with GitHub's whole reply. */
  function InvalidCode(tokenJson: Json): Outcome {
    Response(400, Dict([("error", Str("invalid code")), ("details", tokenJson)]))
  }

  /** The answer to an identity without an id or a login, with GitHub's whole reply. */
  function InvalidUser(userInfo: Json): Outcome {
    Response(400, Dict([("error", Str("GitHub user info not valid")), ("details", userInfo)]))
  }

  /** The answer once signed in: the stored row, not what GitHub sent this time. */
  function SignedIn(a: Account, tokens: Json): Outcome {
    Response(200, Dict([
      ("user", Dict([("id", Int(a.id)), ("username", a.username), ("email", a.email),
                     ("github_avatar_url", a.avatarUrl), ("created_at", a.createdAt)])),
      ("tokens", tokens)]))
  }

  // ---------------------------------------------------------------- choosing the email

  /** An entry of `/user/emails` that is picked: primary and verified. */
  predicate Chosen(e: Json) {
    e.Dict? && Truthy(At(e, "primary", Null)) && Truthy(At(e, "verified", Null))
  }

  /** The search of login/views.py:60-63: the `email` of the first primary, verified entry,
      `None` when there is none, or the exception that an entry that is not a dict raises. */
  function PrimaryEmail(entries: seq<Json>): (r: Py<Option<Json>>)
    // an email found is the `email` of a primary, verified entry
    ensures r.Ok? && r.value.Some? ==>
      exists k :: 0 <= k < |entries| && Chosen(entries[k]) && r.value.value == At(entries[k], "email", Null)
    // none is found only when every entry is a dict and none is picked
    ensures r == Ok(None) <==> forall j :: 0 <= j < |entries| ==> entries[j].Dict? && !Chosen(entries[j])
    // an exception comes from an entry that is not a dict
    ensures r.Raise? ==> exists k :: 0 <= k < |entries| && !entries[k].Dict?
    decreases |entries|
  {
    if entries == [] then Ok(None)
    else
      assert forall j :: 0 <= j < |entries| - 1 ==> entries[1..][j] == entries[j + 1];
      match Get(entries[0], "primary")
      case Raise(e) => Raise(e)
      case Ok(primary) =>
        if Truthy(primary) && Truthy(At(entries[0], "verified", Null)) then Ok(Some(At(entries[0], "email", Null)))
        else PrimaryEmail(entries[1..])
  }

  /** The search is a linear scan that stops at index `k`: every entry before it is a dict that
      is not picked; then the entry at `k` is picked and gives the email, or is not a dict and
      raises, or there is no entry left and no email is found. */
  lemma {:induction false} PrimaryEmailScan(entries: seq<Json>) returns (k: nat)
    ensures k <= |entries|
    ensures forall j :: 0 <= j < k ==> entries[j].Dict? && !Chosen(entries[j])
    ensures k == |entries| ==> PrimaryEmail(entries) == Ok(None)
    ensures k < |entries| ==> Chosen(entries[k]) || !entries[k].Dict?
    ensures k < |entries| && Chosen(entries[k]) ==> PrimaryEmail(entries) == Ok(Some(At(entries[k], "email", Null)))
    ensures k < |entries| && !entries[k].Dict? ==> PrimaryEmail(entries) == Raise(Exc(AttributeError, "object has no attribute 'get'"))
    decreases |entries|
  {
    if entries == [] || !entries[0].Dict? || Chosen(entries[0]) {
      return 0;
    }
    var k' := PrimaryEmailScan(entries[1..]);
    assert forall j :: 0 <= j < |entries| - 1 ==> entries[1..][j] == entries[j + 1];
    k := k' + 1;
  }

  /** GitHub's answer to `/user/emails` and, when it is a list, the email it gives: the first
      primary, verified entry's, or `email` when no entry is picked. */
  function EmailFrom(t: Transport, email: Json): (r: Py<Json>)
    ensures t.Failed? ==> r == Raise(Exc(ConnectionError, t.message))
    ensures t.Answered? && t.reply.parsed.None? ==> r.Raise?
    ensures t.Answered? && t.reply.parsed.Some? && t.reply.parsed.value.List? ==>
      var found := PrimaryEmail(t.reply.parsed.value.items);
      && (found.Raise? ==> r == Raise(found.exc))
      && (found == Ok(None) ==> r == Ok(email))
      && (found.Ok? && found.value.Some? ==> r == Ok(found.value.value))
  {
    var res :- Deliver(t);
    var list :- Decode(res);
    var entries :- Iter(list);
    var found :- PrimaryEmail(entries);
    Ok(match found case Some(v) => v case None => email)
  }

  /** The email of login/views.py:52-63: the profile's own when it is truthy, with no further
      request; otherwise the one `/user/emails` gives, with that one request. */
  function Email(server: Server, history: seq<Request>, token: Json, email: Json): (r: Traced<Json>)
    ensures Truthy(email) ==> r == Traced(Ok(email), [])
    ensures !Truthy(email) ==>
      r == Traced(EmailFrom(server(history, ListEmails(Show(token))), email), [ListEmails(Show(token))])
  {
    if Truthy(email) then Traced(Ok(email), [])
    else
      var req := ListEmails(Show(token));
      Traced(EmailFrom(server(history, req), email), [req])
  }

  // ---------------------------------------------------------------- the account

  /** login/views.py:65-96 once the email is known: an identity without an id or a login is
      refused and the table stays as it is; otherwise the row of `str(id)` is created with
      the profile, or only its token is refreshed, and the stored row is returned. */
  function Enroll(accounts: map<string, Account>, nextId: nat, crypto: Primitives, issue: Issuer, now: Json,
                  userInfo: Json, token: Json, email: Json, sent: seq<Request>): (r: Visit)
    requires userInfo.Dict?
    ensures r.sent == sent
    ensures !Truthy(At(userInfo, "id", Null)) || !Truthy(At(userInfo, "login", Null)) ==>
      r == Visit(InvalidUser(userInfo), sent, accounts, nextId)
    ensures Truthy(At(userInfo, "id", Null)) && Truthy(At(userInfo, "login", Null)) ==>
      var p := Profile(At(userInfo, "login", Null), email, At(userInfo, "avatar_url", Null), crypto.encrypt(token));
      var u := Upsert(accounts, nextId, Show(At(userInfo, "id", Null)), p, now);
      r == Visit(SignedIn(u.2, issue(u.2)), sent, u.0, u.1)
  {
    var id := At(userInfo, "id", Null);
    var login := At(userInfo, "login", Null);
    if !Truthy(id) || !Truthy(login) then Visit(InvalidUser(userInfo), sent, accounts, nextId)
    else
      var p := Profile(login, email, At(userInfo, "avatar_url", Null), crypto.encrypt(token));
      var u := Upsert(accounts, nextId, Show(id), p, now);
      Visit(SignedIn(u.2, issue(u.2)), sent, u.0, u.1)
  }

  // ---------------------------------------------------------------- the view

  /** What the view does once GitHub has answered `/user` with `t` (login/views.py:44-96);
      `history` already holds that request. */
  function AfterUser(server: Server, history: seq<Request>, crypto: Primitives, issue: Issuer,
                     accounts: map<string, Account>, nextId: nat, now: Json, token: Json, t: Transport): (r: Visit)
    // nothing but a sign-in touches the table
    ensures !r.outcome.Response? || r.outcome.status != 200 ==> r.accounts == accounts && r.nextId == nextId
    // a profile that is a dict goes on to the email and then to the account
    ensures t.Answered? && t.reply.parsed.Some? && t.reply.parsed.value.Dict? ==>
      var userInfo := t.reply.parsed.value;
      var e := Email(server, history, token, At(userInfo, "email", Null));
      && (e.value.Raise? ==> r == Visit(Unhandled(e.value.exc), e.sent, accounts, nextId))
      && (e.value.Ok? ==> r == Enroll(accounts, nextId, crypto, issue, now, userInfo, token, e.value.value, e.sent))
    // at most the email list is requested
    ensures r.sent == [] || r.sent == [ListEmails(Show(token))]
    // any other answer is an exception, before any further request
    ensures !(t.Answered? && t.reply.parsed.Some? && t.reply.parsed.value.Dict?) ==>
      r.outcome.Unhandled? && r.sent == [] && r.accounts == accounts && r.nextId == nextId
  {
    match Deliver(t)
    case Raise(e) => Visit(Unhandled(e), [], accounts, nextId)
    case Ok(res) =>
      match Decode(res)
      case Raise(e) => Visit(Unhandled(e), [], accounts, nextId)
      case Ok(userInfo) =>
        match Get(userInfo, "id")
        case Raise(e) => Visit(Unhandled(e), [], accounts, nextId)
        case Ok(_) =>
          var e := Email(server, history, token, At(userInfo, "email", Null));
          match e.value
          case Raise(x) => Visit(Unhandled(x), e.sent, accounts, nextId)
          case Ok(email) => Enroll(accounts, nextId, crypto, issue, now, userInfo, token, email, e.sent)
  }

  /** What the view does once GitHub has answered the code exchange with `t`
      (login/views.py:37-96); `history` already holds that request. */
  function AfterExchange(server: Server, history: seq<Request>, crypto: Primitives, issue: Issuer,
                         accounts: map<string, Account>, nextId: nat, now: Json, t: Transport): (r: Visit)
    ensures !r.outcome.Response? || r.outcome.status != 200 ==> r.accounts == accounts && r.nextId == nextId
    // a reply without an access token is refused, with no further request
    ensures t.Answered? && t.reply.parsed.Some? && t.reply.parsed.value.Dict? &&
            !Truthy(At(t.reply.parsed.value, "access_token", Null)) ==>
      r == Visit(InvalidCode(t.reply.parsed.value), [], accounts, nextId)
    // otherwise the identity is read with the token
    ensures t.Answered? && t.reply.parsed.Some? && t.reply.parsed.value.Dict? &&
            Truthy(At(t.reply.parsed.value, "access_token", Null)) ==>
      var token := At(t.reply.parsed.value, "access_token", Null);
      var req := GetUser(Show(token));
      var rest := AfterUser(server, history + [req], crypto, issue, accounts, nextId, now, token, server(history, req));
      r == Visit(rest.outcome, [req] + rest.sent, rest.accounts, rest.nextId)
    ensures !(t.Answered? && t.reply.parsed.Some? && t.reply.parsed.value.Dict?) ==>
      r.outcome.Unhandled? && r.sent == [] && r.accounts == accounts && r.nextId == nextId
    // at most the identity and then the email list are requested, with the same token
    ensures |r.sent| <= 2
    ensures |r.sent| > 0 ==> r.sent[0].GetUser?
    ensures |r.sent| > 1 ==> r.sent[1] == ListEmails(r.sent[0].token)
  {
    match Deliver(t)
    case Raise(e) => Visit(Unhandled(e), [], accounts, nextId)
    case Ok(res) =>
      match Decode(res)
      case Raise(e) => Visit(Unhandled(e), [], accounts, nextId)
      case Ok(tokenJson) =>
        match Get(tokenJson, "access_token")
        case Raise(e) => Visit(Unhandled(e), [], accounts, nextId)
        case Ok(token) =>
          if !Truthy(token) then Visit(InvalidCode(tokenJson), [], accounts, nextId)
          else
            var req := GetUser(Show(token));
            var rest := AfterUser(server, history + [req], crypto, issue, accounts, nextId, now, token, server(history, req));
            Visit(rest.outcome, [req] + rest.sent, rest.accounts, rest.nextId)
  }

  /** `GitHubLogin.post` with the decoded request body `data`, the user table before it and the
      creation time `now` a new row would get. */
  function SignIn(server: Server, history: seq<Request>, crypto: Primitives, issue: Issuer,
                  accounts: map<string, Account>, nextId: nat, now: Json, data: Json): (r: Visit)
    ensures !r.outcome.Response? || r.outcome.status != 200 ==> r.accounts == accounts && r.nextId == nextId
    // a missing code is refused before any request
    ensures data.Dict? && !Truthy(At(data, "code", Null)) ==> r == Visit(CodeRequired(), [], accounts, nextId)
    ensures !data.Dict? ==> r.outcome.Unhandled? && r.sent == [] && r.accounts == accounts && r.nextId == nextId
    // otherwise the code is exchanged first, and the reply decides the rest
    ensures data.Dict? && Truthy(At(data, "code", Null)) ==>
      var req := ExchangeCode(At(data, "code", Null));
      var rest := AfterExchange(server, history + [req], crypto, issue, accounts, nextId, now, server(history, req));
      r == Visit(rest.outcome, [req] + rest.sent, rest.accounts, rest.nextId)
    // at most the exchange, the identity and the email list are requested, in that order
    ensures |r.sent| <= 3
    ensures |r.sent| > 0 ==> r.sent[0] == ExchangeCode(At(data, "code", Null))
    ensures |r.sent| > 1 ==> r.sent[1].GetUser?
    ensures |r.sent| > 2 ==> r.sent[2] == ListEmails(r.sent[1].token)
  {
    match Get(data, "code")
    case Raise(e) => Visit(Unhandled(e), [], accounts, nextId)
    case Ok(code) =>
      if !Truthy(code) then Visit(CodeRequired(), [], accounts, nextId)
      else
        var req := ExchangeCode(code);
        var rest := AfterExchange(server, history + [req], crypto, issue, accounts, nextId, now, server(history, req));
        Visit(rest.outcome, [req] + rest.sent, rest.accounts, rest.nextId)
  }

  // ---------------------------------------------------------------- the table stays well formed

  lemma EnrollKeepsWellFormed(accounts: map<string, Account>, nextId: nat, crypto: Primitives, issue: Issuer,
                              now: Json, userInfo: Json, token: Json, email: Json, sent: seq<Request>)
    requires userInfo.Dict? && WellFormed(accounts, nextId)
    ensures var r := Enroll(accounts, nextId, crypto, issue, now, userInfo, token, email, sent);
      WellFormed(r.accounts, r.nextId)
  {
    var id := At(userInfo, "id", Null);
    var p := Profile(At(userInfo, "login", Null), email, At(userInfo, "avatar_url", Null), crypto.encrypt(token));
    UpsertWellFormed(accounts, nextId, Show(id), p, now);
  }

  lemma AfterUserKeepsWellFormed(server: Server, history: seq<Request>, crypto: Primitives, issue: Issuer,
                                 accounts: map<string, Account>, nextId: nat, now: Json, token: Json, t: Transport)
    requires WellFormed(accounts, nextId)
    ensures var r := AfterUser(server, history, crypto, issue, accounts, nextId, now, token, t);
      WellFormed(r.accounts, r.nextId)
  {
    if t.Answered? && t.reply.parsed.Some? && t.reply.parsed.value.Dict? {
      var userInfo := t.reply.parsed.value;
      var e := Email(server, history, token, At(userInfo, "email", Null));
      if e.value.Ok? {
        EnrollKeepsWellFormed(accounts, nextId, crypto, issue, now, userInfo, token, e.value.value, e.sent);
      }
    }
  }

  /** However GitHub answers, a sign-in keeps the user table well formed: one row per github
      id, under that id, with distinct local ids. */
  lemma SignInKeepsWellFormed(server: Server, history: seq<Request>, crypto: Primitives, issue: Issuer,
                              accounts: map<string, Account>, nextId: nat, now: Json, data: Json)
    requires WellFormed(accounts, nextId)
    ensures var r := SignIn(server, history, crypto, issue, accounts, nextId, now, data);
      WellFormed(r.accounts, r.nextId)
  {
    if data.Dict? && Truthy(At(data, "code", Null)) {
      var req := ExchangeCode(At(data, "code", Null));
      var t := server(history, req);
      if t.Answered? && t.reply.parsed.Some? && t.reply.parsed.value.Dict? {
        var token := At(t.reply.parsed.value, "access_token", Null);
        if Truthy(token) {
          var req2 := GetUser(Show(token));
          AfterUserKeepsWellFormed(server, history + [req] + [req2], crypto, issue, accounts, nextId, now, token,
                                   server(history + [req], req2));
        }
      }
    }
  }

  // ---------------------------------------------------------------- the view as it runs

  /** The loop of login/views.py:60-63, as the source runs it: `email` is replaced by the first
      primary, verified entry's and the search stops there. */
  method ChooseEmail(entries: seq<Json>, email: Json) returns (r: Py<Json>)
    ensures r == match PrimaryEmail(entries) case Raise(e) => Raise(e) case Ok(Some(v)) => Ok(v) case Ok(None) => Ok(email)
  {
    var chosen := email;
    var i := 0;
    while i < |entries|
      invariant i <= |entries|
      invariant PrimaryEmail(entries[i..]) == PrimaryEmail(entries)
      invariant chosen == email
    {
      assert entries[i..][0] == entries[i] && entries[i..][1..] == entries[i + 1..];
      var primary := Get(entries[i], "primary");
      if primary.Raise? {
        return Raise(primary.exc);
      }
      if Truthy(primary.value) && Truthy(At(entries[i], "verified", Null)) {
        chosen := At(entries[i], "email", Null);
        break;
      }
      i := i + 1;
    }
    r := Ok(chosen);
  }

  /** The handling of the `/user/emails` reply, as the source runs it. */
  method EmailFromView(t: Transport, email: Json) returns (r: Py<Json>)
    ensures r == EmailFrom(t, email)
  {
    if t.Failed? {
      return Raise(Exc(ConnectionError, t.message));
    }
    var list := Decode(t.reply);
    if list.Raise? {
      return Raise(list.exc);
    }
    var entries := Iter(list.value);
    if entries.Raise? {
      return Raise(entries.exc);
    }
    r := ChooseEmail(entries.value, email);
  }

  /** The email step, as the source runs it. */
  method EmailView(gh: Remote, token: Json, email: Json) returns (r: Py<Json>)
    modifies gh
    ensures var e := Email(gh.server, old(gh.log), token, email); r == e.value && gh.log == old(gh.log) + e.sent
  {
    if Truthy(email) {
      return Ok(email);
    }
    var t := gh.Send(ListEmails(Show(token)));
    r := EmailFromView(t, email);
  }

  /** login/views.py:69-82 as the source runs it: `get_or_create`, then `save` of the fresh
      token for a row that already existed. */
  method Register(store: AccountStore, key: string, p: Profile, now: Json) returns (a: Account)
    requires store.Valid()
    modifies store
    ensures store.Valid()
    ensures var u := Upsert(old(store.accounts), old(store.nextId), key, p, now);
      store.accounts == u.0 && store.nextId == u.1 && a == u.2
  {
    var created;
    a, created := store.GetOrCreate(key, p, now);
    if !created {
      a := store.SaveToken(key, p.accessToken);
      assert store.accounts == old(store.accounts)[key := a];
    }
  }

  /** The account step, as the source runs it. */
  method EnrollView(store: AccountStore, crypto: Primitives, issue: Issuer, now: Json, userInfo: Json, token: Json,
                    email: Json) returns (out: Outcome)
    requires userInfo.Dict? && store.Valid()
    modifies store
    ensures store.Valid()
    ensures !Truthy(At(userInfo, "id", Null)) || !Truthy(At(userInfo, "login", Null)) ==>
      out == InvalidUser(userInfo) && store.accounts == old(store.accounts) && store.nextId == old(store.nextId)
    ensures Truthy(At(userInfo, "id", Null)) && Truthy(At(userInfo, "login", Null)) ==>
      var p := Profile(At(userInfo, "login", Null), email, At(userInfo, "avatar_url", Null), crypto.encrypt(token));
      var u := Upsert(old(store.accounts), old(store.nextId), Show(At(userInfo, "id", Null)), p, now);
      out == SignedIn(u.2, issue(u.2)) && store.accounts == u.0 && store.nextId == u.1
  {
    var id := At(userInfo, "id", Null);
    var login := At(userInfo, "login", Null);
    if !Truthy(id) || !Truthy(login) {
      return InvalidUser(userInfo);
    }
    var a := Register(store, Show(id), Profile(login, email, At(userInfo, "avatar_url", Null), crypto.encrypt(token)), now);
    out := SignedIn(a, issue(a));
  }

  /** The part of the view after the `/user` request, as the source runs it. */
  method AfterUserView(gh: Remote, store: AccountStore, crypto: Primitives, issue: Issuer, now: Json, token: Json,
                       t: Transport) returns (out: Outcome)
    requires store.Valid()
    modifies gh, store
    ensures store.Valid()
    ensures var r := AfterUser(gh.server, old(gh.log), crypto, issue, old(store.accounts), old(store.nextId), now, token, t);
      out == r.outcome && gh.log == old(gh.log) + r.sent && store.accounts == r.accounts && store.nextId == r.nextId
  {
    if t.Failed? {
      return Unhandled(Exc(ConnectionError, t.message));
    }
    var info := Decode(t.reply);
    if info.Raise? {
      return Unhandled(info.exc);
    }
    var id := Get(info.value, "id");
    if id.Raise? {
      return Unhandled(id.exc);
    }
    var email := EmailView(gh, token, At(info.value, "email", Null));
    if email.Raise? {
      return Unhandled(email.exc);
    }
    out := EnrollView(store, crypto, issue, now, info.value, token, email.value);
  }

  /** The part of the view after the code exchange, as the source runs it. */
  method AfterExchangeView(gh: Remote, store: AccountStore, crypto: Primitives, issue: Issuer, now: Json,
                           t: Transport) returns (out: Outcome)
    requires store.Valid()
    modifies gh, store
    ensures store.Valid()
    ensures var r := AfterExchange(gh.server, old(gh.log), crypto, issue, old(store.accounts), old(store.nextId), now, t);
      out == r.outcome && gh.log == old(gh.log) + r.sent && store.accounts == r.accounts && store.nextId == r.nextId
  {
    if t.Failed? {
      return Unhandled(Exc(ConnectionError, t.message));
    }
    var tokenJson := Decode(t.reply);
    if tokenJson.Raise? {
      return Unhandled(tokenJson.exc);
    }
    var token := Get(tokenJson.value, "access_token");
    if token.Raise? {
      return Unhandled(token.exc);
    }
    if !Truthy(token.value) {
      return InvalidCode(tokenJson.value);
    }
    var req := GetUser(Show(token.value));
    var u := gh.Send(req);
    ghost var log1 := gh.log;
    out := AfterUserView(gh, store, crypto, issue, now, token.value, u);
    AppendTwice(old(gh.log), [req],
                AfterUser(gh.server, log1, crypto, issue, old(store.accounts), old(store.nextId), now, token.value, u).sent);
  }

  /** The view, as the source runs it, against the user table `store`. */
  method SignInView(gh: Remote, store: AccountStore, crypto: Primitives, issue: Issuer, now: Json, data: Json)
    returns (out: Outcome)
    requires store.Valid()
    modifies gh, store
    ensures store.Valid()
    ensures var r := SignIn(gh.server, old(gh.log), crypto, issue, old(store.accounts), old(store.nextId), now, data);
      out == r.outcome && gh.log == old(gh.log) + r.sent && store.accounts == r.accounts && store.nextId == r.nextId
  {
    var code := Get(data, "code");
    if code.Raise? {
      return Unhandled(code.exc);
    }
    if !Truthy(code.value) {
      return CodeRequired();
    }
    var req := ExchangeCode(code.value);
    var t := gh.Send(req);
    ghost var log1 := gh.log;
    out := AfterExchangeView(gh, store, crypto, issue, now, t);
    AppendTwice(old(gh.log), [req], AfterExchange(gh.server, log1, crypto, issue, old(store.accounts), old(store.nextId), now, t).sent);
  }
}
