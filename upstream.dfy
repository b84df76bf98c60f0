/** The GitHub REST API as the views see it through `requests`: the requests they issue,
    the replies they get, and a remote whose answers are scripted by the caller. */
module Upstream {
  import opened Json

  /** One HTTP reply: the status code, the raw body (`res.text`) and what `res.json()`
      decodes that body to (`None`: the body is not JSON and `res.json()` raises ValueError). */
  datatype Reply = Reply(status: int, text: string, parsed: Option<Json>)

  /** What one `requests` call gives back: a reply, or a connection/timeout exception. */
  datatype Transport = Answered(reply: Reply) | Failed(message: string)

  /** The requests the views issue. `token` is the access token put in the Authorization
      header; `owner` and `repo` are the URL path segments, as the f-string renders them. */
  datatype Request =
      /** GET /user/repos?per_page=..&visibility=.. */
    | ListRepos(token: string, perPage: int, visibility: string)
      /** POST /user/repos with the JSON payload {name, description, private, auto_init} */
    | CreateRepo(token: string, name: Json, description: Json, isPrivate: bool, autoInit: Json)
      /** GET /repos/{owner}/{repo}/contents/{path}?ref={ref} */
    | GetContents(token: string, owner: string, repo: string, path: string, ref: string)
      /** GET of a raw download URL, without credentials */
    | Download(url: Json)
      /** GET /repos/{owner}/{repo}/actions/secrets/public-key */
    | GetPublicKey(token: string, owner: string, repo: string)
      /** PUT /repos/{owner}/{repo}/actions/secrets/{secretName} with {encrypted_value, key_id} */
    | PutSecret(token: string, owner: string, repo: string, secretName: string, encryptedValue: string, keyId: Json)
      /** GET /repos/{owner}/{repo}/git/ref/heads/{head} */
    | GetBranchRef(token: string, owner: string, repo: string, head: string)
      /** PUT /repos/{owner}/{repo}/contents/{path} with {message, content, branch} */
    | PutFile(token: string, owner: string, repo: string, path: string, message: Json, content: string, branch: Json)
      /** GET /repos/{owner}/{repo}/actions/runs?branch={branchFilter}&per_page={perPage} */
    | ListRuns(token: string, owner: string, repo: string, branchFilter: string, perPage: int)
      /** POST https://github.com/login/oauth/access_token with the application's id, secret and the code */
    | ExchangeCode(code: Json)
      /** GET /user */
    | GetUser(token: string)
      /** GET /user/emails */
    | ListEmails(token: string)

  /** `res.json()`. */
  function Decode(r: Reply): (j: Py<Json>)
    ensures j.Ok? <==> r.parsed.Some?
    ensures j.Ok? ==> j.value == r.parsed.value
  {
    match r.parsed
    case Some(v) => Ok(v)
    case None => Raise(Exc(ValueError, "Expecting value: line 1 column 1 (char 0)"))
  }

  /** A call whose transport exception nobody catches: the reply, or the exception. */
  function Deliver(t: Transport): (r: Py<Reply>)
    ensures r.Ok? <==> t.Answered?
    ensures r.Ok? ==> r.value == t.reply
  {
    match t
    case Answered(reply) => Ok(reply)
    case Failed(m) => Raise(Exc(ConnectionError, m))
  }

  /** Logs grow by concatenation, which is associative. */
  lemma AppendTwice(a: seq<Request>, b: seq<Request>, c: seq<Request>)
    ensures a + b + c == a + (b + c)
  {
  }

  /** GitHub's behaviour: the answer to a request, given every request issued before it. */
  type Server = (seq<Request>, Request) -> Transport

  /** The remote end, with the log of every request issued to it. */
  class Remote {
    const server: Server
    var log: seq<Request>

    constructor (server: Server)
      ensures this.server == server && log == []
    {
      this.server := server;
      log := [];
    }

    /** Issues one request: it is appended to the log and answered by `server`. */
    method Send(req: Request) returns (t: Transport)
      modifies this
      ensures log == old(log) + [req]
      ensures t == server(old(log), req)
    {
      t := server(log, req);
      log := log + [req];
    }
  }
}
