/** The user table (users/models.py) as far as this model needs it: one row per GitHub
    identity, the `github_id` column unique, and Django's `get_or_create` and `save` on it. */
module Accounts {
  import opened Json

  /** One row. `githubId` is the CharField value, i.e. `str()` of the id GitHub reported;
      `accessToken` is the ciphertext `encrypt_token` produced; `createdAt` is the creation
      time (`auto_now_add`) as the API renders it. */
  datatype Account = Account(
    id: nat,
    githubId: string,
    username: Json,
    email: Json,
    avatarUrl: Json,
    accessToken: string,
    createdAt: Json)

  /** The `defaults` of `get_or_create`: the fields a new row is created with. */
  datatype Profile = Profile(username: Json, email: Json, avatarUrl: Json, accessToken: string)

  /** The table keyed by `github_id`: each row sits under its own github id (so the column
      is unique), and local ids are distinct and below the next id to hand out. */
  ghost predicate WellFormed(accounts: map<string, Account>, nextId: nat) {
    && (forall k :: k in accounts ==> accounts[k].githubId == k && accounts[k].id < nextId)
    && (forall k1, k2 :: k1 in accounts && k2 in accounts && k1 != k2 ==> accounts[k1].id != accounts[k2].id)
  }

  /** The row `get_or_create` inserts for an unseen github id. */
  function NewAccount(id: nat, key: string, p: Profile, now: Json): (a: Account)
    ensures a.githubId == key && a.id == id && a.createdAt == now
    ensures a.username == p.username && a.email == p.email && a.avatarUrl == p.avatarUrl
    ensures a.accessToken == p.accessToken
  {
    Account(id, key, p.username, p.email, p.avatarUrl, p.accessToken, now)
  }

  /** The table after login's `get_or_create(github_id=key, defaults=p)` and, for a row
      that already existed, `github_access_token = p.accessToken; save()`: the new state,
      the next id, the row and whether it was created. */
  function Upsert(accounts: map<string, Account>, nextId: nat, key: string, p: Profile, now: Json)
    : (r: (map<string, Account>, nat, Account, bool))
    ensures r.3 <==> key !in accounts
    ensures r.0 == accounts[key := r.2]
  {
    if key in accounts then
      var a := accounts[key].(accessToken := p.accessToken);
      (accounts[key := a], nextId, a, false)
    else
      var a := NewAccount(nextId, key, p, now);
      (accounts[key := a], nextId + 1, a, true)
  }

  /** Logging in keeps the table well formed: the github id stays unique. */
  lemma UpsertWellFormed(accounts: map<string, Account>, nextId: nat, key: string, p: Profile, now: Json)
    ensures WellFormed(accounts, nextId) ==> var r := Upsert(accounts, nextId, key, p, now); WellFormed(r.0, r.1)
  {
  }

  /** An unseen github id gains exactly one row, with the profile's fields; no other row changes. */
  lemma UpsertCreates(accounts: map<string, Account>, nextId: nat, key: string, p: Profile, now: Json)
    requires WellFormed(accounts, nextId)
    requires key !in accounts
    ensures var r := Upsert(accounts, nextId, key, p, now);
      && r.0.Keys == accounts.Keys + {key}
      && |r.0| == |accounts| + 1
      && r.0[key] == NewAccount(nextId, key, p, now)
      && (forall k :: k in accounts ==> r.0[k] == accounts[k])
  {
  }

  /** A known github id keeps its row: only the stored token changes; the username, email,
      avatar, local id and creation time keep their first-login values, and no row is added. */
  lemma UpsertRefreshesToken(accounts: map<string, Account>, nextId: nat, key: string, p: Profile, now: Json)
    requires key in accounts
    ensures var r := Upsert(accounts, nextId, key, p, now);
      && r.0.Keys == accounts.Keys
      && |r.0| == |accounts|
      && r.1 == nextId
      && r.0[key].accessToken == p.accessToken
      && r.0[key] == accounts[key].(accessToken := p.accessToken)
      && (forall k :: k in accounts && k != key ==> r.0[k] == accounts[k])
  {
  }

  /** The table, updated in place. */
  class AccountStore {
    var accounts: map<string, Account>
    var nextId: nat

    ghost predicate Valid()
      reads this
    {
      WellFormed(accounts, nextId)
    }

    constructor ()
      ensures Valid() && accounts == map[] && nextId == 1
    {
      accounts := map[];
      nextId := 1;
    }

    /** `User.objects.get_or_create(github_id=key, defaults=p)`. */
    method GetOrCreate(key: string, p: Profile, now: Json) returns (a: Account, created: bool)
      requires Valid()
      modifies this
      ensures Valid()
      ensures created <==> key !in old(accounts)
      ensures created ==> a == NewAccount(old(nextId), key, p, now) && nextId == old(nextId) + 1
      ensures !created ==> a == old(accounts)[key] && nextId == old(nextId)
      ensures accounts == old(accounts)[key := a]
    {
      if key in accounts {
        a, created := accounts[key], false;
      } else {
        a := NewAccount(nextId, key, p, now);
        accounts := accounts[key := a];
        nextId := nextId + 1;
        created := true;
      }
    }

    /** `user.github_access_token = token; user.save()` for the row of `key`. */
    method SaveToken(key: string, token: string) returns (a: Account)
      requires Valid() && key in accounts
      modifies this
      ensures Valid()
      ensures a == old(accounts)[key].(accessToken := token)
      ensures accounts == old(accounts)[key := a] && nextId == old(nextId)
    {
      a := accounts[key].(accessToken := token);
      accounts := accounts[key := a];
    }
  }
}
