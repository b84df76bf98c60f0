# cloudy-BE: the GitHub-facing views, modelled in Dafny

cloudy-BE is a Django REST backend. It signs users in with GitHub. It then acts on their
repositories for them: it lists and creates repositories, reads files and directories,
uploads files in one batch, stores encrypted Actions secrets and reports the latest
workflow run. It also renders Terraform variable files. This project models the decision
and orchestration logic of those views and proves what they promise.

The GitHub API is a function `Server` from the requests issued so far and the next request
to a `Transport` (a reply, or a connection error). A view is modelled twice:

- a specification function (`RepoList`, `UploadFiles`, `SignIn`, ...) that returns a `Run`
  or `Visit`: the outcome (a DRF `Response`, or an exception the view does not catch) and
  the requests it issued, in order;
- a method that runs it step by step against a `Remote` object. The `Remote` keeps the log
  of requests, and the user table is an `AccountStore` object. Each method is proved to
  return the specification's outcome, to leave the specification's requests in the log
  and, for login, to leave the specification's table in the store.

Facts such as "no PUT is issued", "file 3 is never attempted" or "every PUT carries the
key id fetched at the start" are statements about that list of requests.

Decoded JSON and DRF's `request.data` are the `Json` datatype. A dict is its sequence of
pairs, with Python's rule that a repeated key keeps its first position and its last value.
Python operations that may raise (`d.get` on a non-dict, `d[k]`, `x[0]`, iteration) return
`Py<T>`, with the exception they raise. An exception that escapes a view becomes
`Outcome.Unhandled`, which Django answers with a 500.

Files:

- `json.dfy`: `Json`, `Py`, and Python's dict lookup, `str()` and truthiness.
- `upstream.dfy`: requests, replies and the `Remote`.
- `http.dfy`: outcomes, query parameters, and a generic fail-fast loop with its lemmas.
- `crypto.dfy`: the cryptographic primitives, which are parameters.
- `accounts.dfy`: the user table.
- `repos.dfy`, `secrets.dfy`, `upload.dfy`, `actions.dfy`, `login.dfy`: one module per view file.
- `tfvars.dfy`: `generate_tfvars`.

## Model

| member | source | states |
|---|---|---|
| Json.Lookup | cloudy/login/views.py:49-52 | `d.get(k)` finds a value iff some pair has key `k`, and the value found is one of that key's |
| Json.LookupLast | cloudy/github/views/secrets.py:59-60 | the value `d.get(k)` finds is that of the last pair with key `k`; no later pair has that key |
| Json.Keys | cloudy/github/views/secrets.py:69 | iterating a dict gives exactly the keys that have a value, each once, no more keys than pairs |
| Json.FirstIndex | cloudy/terraform/utils.py:3 | the position of a key's first pair: it holds the key and no pair before it does |
| Json.KeysInFirstOccurrenceOrder | cloudy/terraform/utils.py:3 | the keys are iterated in the order of their first occurrence |
| Json.Items | cloudy/github/views/secrets.py:69 | `d.items()` has one pair per distinct key, in the order of `Keys`, each pair with the key's (last) value and taken from the dict |
| Json.Traverse | cloudy/github/views/repo.py:46-53 | building one row per element succeeds iff every element succeeds, and then gives exactly the rows of the elements, in order |
| Json.TraverseFirstFailure | cloudy/github/views/repo.py:46-53 | a failing traversal raises the exception of the first failing element, after every element before it succeeded |
| Json.TraverseStopsAt | cloudy/github/views/repo.py:46-53 | an exception at element `k`, after `k` successes, is the exception of the whole loop |
| Upstream.Decode | cloudy/github/views/repo.py:29-30 | `res.json()` succeeds iff the body is JSON, and then gives the decoded body |
| Upstream.Remote.Send | cloudy/github/views/repo.py:26 | a request is appended to the log and answered as the server answers it after the requests before it |
| Http.Loop | cloudy/github/views/upload.py:47-73 | a loop whose body always goes on runs it once per item, each on the log the ones before left, and then answers `done` |
| Http.LoopSendsEach | cloudy/github/views/upload.py:47-69 | when each step sends at most one request, the one for its item, and sends it whenever it goes on, the loop sends those requests of its first `k` items, in order |
| Http.LoopStops | cloudy/github/views/upload.py:47-73 | a loop whose body may return goes on over the first `k` items; at `k` it returns or raises what that step gives, after the requests of the steps before it, or it finishes when no item is left |
| Repos.Summary | cloudy/github/views/repo.py:47-53 | a repository gives its row iff it has name, full_name, html_url, default_branch and an owner dict with a login; the row holds exactly those five values |
| Repos.ListOutcome | cloudy/github/views/repo.py:28-55 | a non-JSON body gives 502 with the raw text, whatever the status; a JSON error status is passed through with status and detail; a 200 list gives one summary per repository in the same order; a repository lacking a field fails the whole view; 200 only for a 200 reply |
| Repos.RepoList | cloudy/github/views/repo.py:12-26 | a token that does not decrypt gives 400 with no request; otherwise exactly one request, for public repositories, 100 per page |
| Repos.SummarizeAll | cloudy/github/views/repo.py:44-53 | the append loop gives the traversal of `Summary` over the repositories |
| Repos.ListRepositories | cloudy/github/views/repo.py:12-55 | the view as it runs returns the specification's outcome and logs its requests |
| Repos.IsExistsError | cloudy/github/views/repo.py:105 | an entry reports a taken name iff it is a dict, its field is "name" and its message contains "exists"; the message is only inspected when the field is "name" |
| Repos.AnyExists | cloudy/github/views/repo.py:104-107 | `any(...)` is false iff no entry reports a taken name; true only if some entry does |
| Repos.AnyExistsStopsAt | cloudy/github/views/repo.py:104-107 | `any` answers true at the first entry that reports a taken name, whatever the entries after it are |
| Repos.NameTaken | cloudy/github/views/repo.py:106 | a body without `errors` reports no conflict; a list of errors is searched with `any` |
| Repos.Created | cloudy/github/views/repo.py:124-132 | the 201 answer exists iff the created repository has name, full_name, html_url and default_branch; it is the message "Public repository created successfully" with exactly those four values from GitHub's body; a missing one raises `KeyError` |
| Repos.CreateOutcome | cloudy/github/views/repo.py:90-132 | a non-JSON body gives 502 with the raw text; 409 `name_conflict` iff the status is 422 and the errors report the name as taken; any other error status, or a 422 without a taken name, is passed through with the detail; a 422 whose errors cannot be read raises; the 502 "invalid response" handler is never reached; a JSON 201 gives `Created` of its body, and 201 is answered only for a 201 reply |
| Repos.CreateRepository | cloudy/github/views/repo.py:61-90 | an empty or missing name gives 400 before decryption and with no request; otherwise one POST, never private, description defaulting to "" and auto_init to true |
| Repos.FetchContent | cloudy/github/views/repo.py:172-174 | a download gives the text on a 200 and null on any other status; a connection error raises |
| Repos.Describe | cloudy/github/views/repo.py:175-179 | a child's row exists iff it has name and path, and holds them with the given content |
| Repos.Entry | cloudy/github/views/repo.py:170-179 | a child is downloaded iff it is a file with a download URL; its content is the downloaded text or null, and null for every other child; it fails exactly when it lacks `type`, `name` or `path` or its download has a connection error, and a missing `type` fails before any download |
| Repos.Listing | cloudy/github/views/repo.py:168-179 | a completed directory listing has one row per child, and issues only downloads, at most one per child |
| Repos.ListingDownloads | cloudy/github/views/repo.py:169-174 | a completed listing downloads exactly the downloadable children, in order |
| Repos.EntryRow | cloudy/github/views/repo.py:170-179 | a child's row describes it, with null content or, for a downloadable child, some downloaded text |
| Repos.ListingRows | cloudy/github/views/repo.py:168-179 | row `i` of a completed listing describes child `i`, with its content as `EntryRow` states |
| Repos.ContentsRequest | cloudy/github/views/repo.py:140-153 | the contents request names the user's repository, `path` defaulting to the root and `branch` to "main" |
| Repos.Resolve | cloudy/github/views/repo.py:160-204 | an error status is passed through with no download; a directory gives 200 with one row per child after downloading exactly the downloadable children; a directory whose listing raises, or a single file that raises, fails the view with that exception after the requests issued; a single file is otherwise resolved as a child is; any other shape gives 500 "Unexpected GitHub API response" with no download |
| Repos.RepoContents | cloudy/github/views/repo.py:138-164 | a missing repo_name gives 400 before decryption and with no request; otherwise the contents request comes first and is followed only by downloads |
| Repos.ResolveEntry | cloudy/github/views/repo.py:170-179 | one turn of the directory loop as it runs equals `Entry` |
| Repos.ResolveDirectory | cloudy/github/views/repo.py:168-179 | the directory loop as it runs equals `Listing` |
| Repos.ResolveReply | cloudy/github/views/repo.py:160-204 | the reply handling as it runs equals `Resolve` |
| Repos.RepoFileContents | cloudy/github/views/repo.py:138-204 | the view as it runs returns the specification's outcome and logs its requests |
| Secrets.AttemptOne | cloudy/github/views/secrets.py:70-86 | a value that does not encrypt is recorded as failed with nothing sent; otherwise one PUT of the sealed value with the shared key id; the secret is stored iff that PUT is answered 201 or 204; a refused PUT records GitHub's body, a raising one the exception, each under the secret's name |
| Secrets.Failures | cloudy/github/views/secrets.py:68-86 | the failure list is empty iff no attempt failed, and no longer than the attempts |
| Secrets.PositionsSnoc | cloudy/github/views/secrets.py:69-86 | one more attempt keeps the failure entries in step with the attempts: its failure, if any, is appended at its own position |
| Secrets.FailuresInOrder | cloudy/github/views/secrets.py:68-86 | the failure list holds exactly the failures of the attempts, in attempt order: entry `k` is the failure of attempt `idx[k]`, the positions increase, and every failed attempt has its entry |
| Secrets.Attempts | cloudy/github/views/secrets.py:69-86 | one attempt per secret |
| Secrets.AttemptsInOrder | cloudy/github/views/secrets.py:69-86 | attempt `i` is for secret `i` and sees exactly the requests of the attempts before it: no earlier failure stops it |
| Secrets.AttemptsSendPuts | cloudy/github/views/secrets.py:72-78 | every request of the loop is a PUT to the same repository with the one key id fetched at the start |
| Secrets.PutsFollowSecrets | cloudy/github/views/secrets.py:69-78 | the PUTs name exactly the secrets that encrypt, in iteration order, one each |
| Secrets.AfterKey | cloudy/github/views/secrets.py:44-98 | a non-JSON key reply gives 502 and a JSON error status is passed through, with no PUT; a missing key or key id gives 502 before any secret; with a valid key, `secrets` that are not a dict raise `AttributeError` with nothing sent; otherwise one attempt per secret, then 207 with the failures or 201 with every name |
| Secrets.UploadSecrets | cloudy/github/views/secrets.py:14-98 | a missing repo_name or empty secrets gives 400 before decryption and with no request; otherwise the public key is fetched first, once |
| Secrets.AttemptSecret | cloudy/github/views/secrets.py:70-86 | one iteration with its try/except, as it runs, equals `AttemptOne` |
| Secrets.AttemptAll | cloudy/github/views/secrets.py:68-86 | the loop as it runs collects `Failures` of `Attempts` and logs their requests |
| Secrets.AfterKeyView | cloudy/github/views/secrets.py:44-98 | the part after the key request, as it runs, equals `AfterKey` |
| Secrets.FetchKeyAndUpload | cloudy/github/views/secrets.py:41-98 | the key request and everything after it, as it runs |
| Secrets.UploadSecretsView | cloudy/github/views/secrets.py:14-98 | the view as it runs returns the specification's outcome and logs its requests |
| Upload.PutOf | cloudy/github/views/upload.py:55-63 | every PUT carries the submitted commit message and branch; a ready entry is written at its own path with the base64 of its own content |
| Upload.PutOne | cloudy/github/views/upload.py:48-69 | an entry without a path or with null content gives 400 with nothing sent; a ready entry is PUT once; the loop goes on iff that PUT is answered 200 or 201; a refused PUT with a JSON reply gives exactly GitHub's status and body, naming the path, and a refused PUT gives nothing else; a connection error or a non-JSON refusal raises; a non-dict entry or a non-string content raises with nothing sent |
| Upload.PutAll | cloudy/github/views/upload.py:47-73 | the loop PUTs the files in order, each at most once, and none after the one it stops at: its requests are the PUTs of its first `k` files |
| Upload.PutAllFailFast | cloudy/github/views/upload.py:47-73 | the loop goes on past the first `k` files, each ready and accepted after the PUTs before it; with no file left it gives 201 after one PUT per file; otherwise it ends with file `k`'s answer and no later file is attempted |
| Upload.AfterBranch | cloudy/github/views/upload.py:41-73 | a branch ref that is not 200 gives 400 with no file PUT; otherwise a list of files is uploaded in submission order, and truthy `files` that are not a list raise with no PUT |
| Upload.UploadFiles | cloudy/github/views/upload.py:12-73 | decryption is checked first; missing fields give 400 with no request; otherwise the branch is looked up first |
| Upload.PutFileEntry | cloudy/github/views/upload.py:48-69 | one iteration as it runs equals `PutOne` |
| Upload.PutEach | cloudy/github/views/upload.py:47-69 | the loop as it runs stops at the first iteration that does not go on, after logging the PUTs of the files before it |
| Upload.PutFiles | cloudy/github/views/upload.py:47-73 | the upload loop as it runs equals `PutAll` |
| Upload.AfterBranchView | cloudy/github/views/upload.py:41-73 | the part after the branch lookup, as it runs, equals `AfterBranch` |
| Upload.UploadFilesView | cloudy/github/views/upload.py:12-73 | the view as it runs returns the specification's outcome and logs its requests |
| Actions.Project | cloudy/github/views/github_actions.py:61-69 | the run gives a body iff it has an id; the body holds id, name, head_branch as branch, status, conclusion, html_url and updated_at, the others defaulting to null |
| Actions.Classify | cloudy/github/views/github_actions.py:40-69 | a non-JSON body gives 502; a JSON error status is passed through; missing or empty `workflow_runs` gives 204; 200 only as the projection of the first run |
| Actions.RunsRequest | cloudy/github/views/github_actions.py:31 | the request asks for one run of the given branch, defaulting to "main" |
| Actions.Status | cloudy/github/views/github_actions.py:12-38 | a missing repo_name gives 400 before decryption and with no request; otherwise exactly one request, whose reply is classified |
| Accounts.NewAccount | cloudy/login/views.py:69-77 | a new row has the github id, the next local id, the creation time and the profile's username, email, avatar and token |
| Accounts.Upsert | cloudy/login/views.py:69-82 | a row is created iff the github id is unseen; the table afterwards holds the returned row under that id |
| Accounts.UpsertWellFormed | cloudy/users/models.py:5 | signing in keeps the github id unique and the local ids distinct |
| Accounts.UpsertCreates | cloudy/login/views.py:69-77 | an unseen github id gains exactly one row, with the profile's fields, and no other row changes |
| Accounts.UpsertRefreshesToken | cloudy/login/views.py:80-82 | a known github id keeps its row and only its token changes; no row is added |
| Accounts.AccountStore.GetOrCreate | cloudy/login/views.py:69-77 | `get_or_create` returns the existing row, or inserts the new one under the next local id |
| Accounts.AccountStore.SaveToken | cloudy/login/views.py:80-82 | saving a fresh token changes that field of that row and nothing else |
| Login.PrimaryEmail | cloudy/login/views.py:60-63 | an email found is that of a primary, verified entry; none is found iff every entry is a dict and none is both; an exception comes from an entry that is not a dict |
| Login.PrimaryEmailScan | cloudy/login/views.py:60-63 | the email search is a linear scan: every entry before the stop is a dict that is not both primary and verified; the stop gives that entry's email, raises for a non-dict, or finds none |
| Login.EmailFrom | cloudy/login/views.py:56-63 | a list of emails gives the first primary, verified entry's email, or the unchanged email when there is none |
| Login.Email | cloudy/login/views.py:52-63 | a truthy profile email is kept with no request; otherwise exactly one request for the email list |
| Login.Enroll | cloudy/login/views.py:65-96 | a missing id or login gives 400 and leaves the table as it is; otherwise the row of `str(id)` is created or refreshed and the stored row is answered with its tokens |
| Login.AfterUser | cloudy/login/views.py:44-96 | only a sign-in changes the table; the email is chosen before the id and login are checked; at most the email list is requested |
| Login.AfterExchange | cloudy/login/views.py:30-96 | a reply without an access token gives 400 "invalid code" with no further request and no table change; otherwise the identity is read with that token |
| Login.SignIn | cloudy/login/views.py:24-96 | a missing code gives 400 with no request; only a 200 changes the table; at most the exchange, the identity and the email list are requested, in that order, with the same token |
| Login.EnrollKeepsWellFormed | cloudy/login/views.py:65-82 | the account step keeps the table well formed |
| Login.AfterUserKeepsWellFormed | cloudy/login/views.py:44-82 | whatever `/user` answers, the table stays well formed |
| Login.SignInKeepsWellFormed | cloudy/login/views.py:24-96 | however GitHub answers, a sign-in keeps one row per github id, under that id, with distinct local ids |
| Login.ChooseEmail | cloudy/login/views.py:60-63 | the loop with `break`, as it runs, gives the email `PrimaryEmail` picks, or the given one |
| Login.EmailFromView | cloudy/login/views.py:56-63 | the email-list handling as it runs equals `EmailFrom` |
| Login.EmailView | cloudy/login/views.py:52-63 | the email step as it runs equals `Email` |
| Login.Register | cloudy/login/views.py:69-82 | `get_or_create`, then `save` of the token for an existing row, leaves the store as `Upsert` says |
| Login.EnrollView | cloudy/login/views.py:65-96 | the account step as it runs answers as `Enroll` and updates the store as `Upsert` says |
| Login.AfterUserView | cloudy/login/views.py:44-96 | the part after `/user`, as it runs, equals `AfterUser` |
| Login.AfterExchangeView | cloudy/login/views.py:30-96 | the part after the code exchange, as it runs, equals `AfterExchange` |
| Login.SignInView | cloudy/login/views.py:24-96 | the view as it runs returns the specification's outcome, logs its requests and leaves its table |
| Tfvars.Line | cloudy/terraform/utils.py:4-7 | a line is its key, ` = `, then a string value between double quotes, unchanged, or any other value as `str()` shows it |
| Tfvars.Render | cloudy/terraform/utils.py:1-8 | the text is empty iff the dict is empty |
| Tfvars.StringValueUnescaped | cloudy/terraform/utils.py:4-5 | a string value is written between two quotes as it is, so a quote inside it is not escaped |
| Tfvars.OtherValueBare | cloudy/terraform/utils.py:6-7 | any other value is written bare, as `str()` renders it: `True`/`False`, `None`, the digits of an integer |
| Tfvars.RenderEmpty | cloudy/terraform/utils.py:2-8 | an empty dict renders as the empty string |
| Tfvars.RenderLines | cloudy/terraform/utils.py:2-8 | splitting the text on newlines gives back one line per entry, in iteration order, each starting with its key, so there is no trailing newline |
| Tfvars.GenerateTfvars | cloudy/terraform/utils.py:1-8 | the append loop and the join give `Render` of the dict |

## Left out

- Floating-point JSON numbers are not modelled. JSON values are null, booleans, integers, strings, lists and dicts.
- `str()` and `repr()` are simplified. A nested string is always shown in single quotes and nothing is escaped. The texts of Python's exception messages are approximations, and so are messages built from them (`str(e)` in the 400 "Token decrypt failed" answers and in the secret failures).
- `decrypt_token` and `encrypt_token` (from `login.utils`, which is not part of this model), PyNaCl's sealed box and base64 are parameters (`Crypto.Primitives`). Decryption and sealing may raise, with any exception. `encrypt_token` and base64 are total, deterministic functions of their input: they never raise, and nothing else about their output is assumed.
- `get_tokens_for_user` belongs to the JWT library. It is the `Issuer` parameter.
- The creation time that `auto_now_add` sets is the `now` parameter. Django's rendering of it is part of that parameter.
- The HTTP transport is the `Server` parameter. Headers, the `Accept` values, the OAuth client id and secret from settings, and URL encoding are not modelled. A request keeps only the values the view puts into it.
- DRF's authentication and permissions are left out: the signed-in user is a parameter. `request.data` is a decoded `Json` value; multi-valued form data is not modelled. `request.query_params` is a map from each name to the value the view reads.
- Serialising the `Response` body, and Django's 500 page for an uncaught exception, are not modelled.
- The ORM is modelled only as the `AccountStore`: the database sequence becomes `nextId`. Concurrent sign-ins, `IntegrityError` and transactions are not modelled.
- `cloudy/github/views.py` is a verbatim copy of the repository listing view and is shadowed by the `github/views/` package. It is modelled once, through repo.py.
- `cloudy/terraform/views.py` (template lookup, file copies and writes, a database insert) and `cloudy/tfsec/views.py` (an external scanner run as a subprocess) are file-system, ORM and process I/O. They are not modelled.
- `GitHubOAuthURLView` only builds a URL from settings, and `ProfileView` only echoes three fields. Neither is modelled.
- `cloudy/cloudy/urls.py` is routing, and it is not modelled. It imports a `Logout` view that `cloudy/login/views.py` does not define.
- `generate_tfvars` keys are strings, since its callers pass decoded JSON; a non-string key is not modelled.
- Tfvars.RenderLines: stated only for dicts whose keys and rendered values hold no newline. A value containing a newline spreads over several lines, so splitting the text does not give one line per entry.
- Repos.ListingRows: says only that a downloadable child's content is some downloaded text. Which text it is (that of the 200 reply to its own download) is stated by `Repos.Entry`.

## The code and its description

Where the repository's description and its code differ, the model follows the code:

- Reading a directory does not recurse into sub-directories. Only the direct children of type "file" that have a download URL are downloaded.
- A child's download that does not answer 200 gives null content. A connection error on that download is not caught, however, and fails the whole view. So does a child that lacks `type`, `name` or `path`.
- The secrets are uploaded in the iteration order of the submitted dict, one after the other, and the model states that order.
- Login keeps the profile's own email whenever it is truthy, without checking that it is verified. Only the fallback list is filtered on `primary` and `verified`.
- Repository creation catches `ValueError` around a second `res.json()` (repo.py:112-116). The first call, at repo.py:93, already succeeded by then, so that handler cannot run; `Repos.CreateOutcome` states that its 502 answer never occurs.
