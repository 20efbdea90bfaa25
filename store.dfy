/**
 * The persistent state the login pipeline touches: the `users` and
 * `social_accounts` tables, Sanctum's personal access tokens and the
 * authenticated sessions. The Eloquent operations the controllers call
 * (`firstOrCreate`, `updateOrCreate`, `update`, `createToken`,
 * `Auth::login`, `delete`) are specified as functions on a `State` value;
 * the class `Database` performs them in place.
 */
module Store {
  import opened Wrappers
  import opened Models

  /** A personal access token row; the hash of the secret is not modelled. */
  datatype AccessToken = AccessToken(userId: nat, name: string)

  /** An authenticated session, as established by `Auth::login($user, $remember)`. */
  datatype Session = Session(userId: nat, remember: bool)

  /** The tables; `users` is keyed by the email column, `nextId` is the auto-increment counter. */
  datatype State = State(
    users: map<string, User>,
    nextId: nat,
    accounts: seq<SocialAccount>,
    tokens: seq<AccessToken>,
    sessions: set<Session>)

  function UserIds(users: map<string, User>): set<nat> {
    set e | e in users :: users[e].id
  }

  /** Number of rows `updateOrCreate` would match for `k`. */
  function Count(rows: seq<SocialAccount>, k: AccountKey): nat {
    if rows == [] then 0
    else (if KeyOf(rows[0]) == k then 1 else 0) + Count(rows[1..], k)
  }

  /** A row carrying `k` exists when `k` is counted. */
  lemma {:induction false} CountWitness(rows: seq<SocialAccount>, k: AccountKey) returns (i: nat)
    requires Count(rows, k) > 0
    ensures i < |rows| && KeyOf(rows[i]) == k
  {
    if KeyOf(rows[0]) == k {
      i := 0;
    } else {
      var j := CountWitness(rows[1..], k);
      i := j + 1;
    }
  }

  /** The avatar of the first row matching `k`, if any. */
  function AvatarOf(rows: seq<SocialAccount>, k: AccountKey): Option<string> {
    if rows == [] then None
    else if KeyOf(rows[0]) == k then Some(rows[0].avatar)
    else AvatarOf(rows[1..], k)
  }

  /**
   * The store's invariant: users are keyed by their own email, ids are
   * distinct and below the counter, every social account refers to an
   * existing user, and no two social accounts share a
   * (provider, provider_id, user_id) key.
   */
  ghost predicate Consistent(s: State) {
    && (forall e | e in s.users :: s.users[e].email == e && s.users[e].id < s.nextId)
    && (forall e1, e2 | e1 in s.users && e2 in s.users && e1 != e2 :: s.users[e1].id != s.users[e2].id)
    && (forall i | 0 <= i < |s.accounts| :: s.accounts[i].userId in UserIds(s.users))
    && (forall k :: Count(s.accounts, k) <= 1)
  }

  /** A fresh database; auto-increment ids start at 1. */
  const Empty := State(map[], 1, [], [], {})

  /** `SocialAccount::user()`: every social account belongs to exactly one user. */
  lemma AccountBelongsToOneUser(s: State, i: nat)
    requires Consistent(s) && i < |s.accounts|
    ensures exists e | e in s.users :: s.users[e].id == s.accounts[i].userId
    ensures forall e1, e2 | e1 in s.users && e2 in s.users
              && s.users[e1].id == s.accounts[i].userId && s.users[e2].id == s.accounts[i].userId :: e1 == e2
  {
    assert s.accounts[i].userId in UserIds(s.users);
  }

  // ---------------------------------------------------------------- users

  /**
   * `User::firstOrCreate(['email' => email], ['name' => name, 'password' => password])`:
   * the existing user with that email, or a new one with the next id.
   */
  function FirstOrCreateUser(s: State, email: string, name: string, password: string): (r: (State, User))
    ensures email in r.0.users && r.0.users[email] == r.1
    ensures r.0.accounts == s.accounts && r.0.tokens == s.tokens && r.0.sessions == s.sessions
    ensures email in s.users ==> r == (s, s.users[email])
    ensures email !in s.users ==>
      && r.1 == User(s.nextId, name, email, password, None)
      && r.0.users == s.users[email := r.1] && r.0.nextId == s.nextId + 1
  {
    if email in s.users then (s, s.users[email])
    else
      var u := User(s.nextId, name, email, password, None);
      (s.(users := s.users[email := u], nextId := s.nextId + 1), u)
  }

  lemma FirstOrCreatePreservesConsistency(s: State, email: string, name: string, password: string)
    requires Consistent(s)
    ensures Consistent(FirstOrCreateUser(s, email, name, password).0)
  {
    var (s', u) := FirstOrCreateUser(s, email, name, password);
    forall id | id in UserIds(s.users) ensures id in UserIds(s'.users) {
      var e :| e in s.users && s.users[e].id == id;
      assert s'.users[e].id == id;
    }
  }

  /** `$user->update(['login_as' => provider])` on the user with that email. */
  function MarkLoginAs(s: State, email: string, provider: string): (s': State)
    requires email in s.users
    ensures s'.users.Keys == s.users.Keys
    ensures s'.users[email].loginAs == Some(provider)
    ensures s'.users[email] == s.users[email].(loginAs := Some(provider))
    ensures forall e | e in s.users && e != email :: s'.users[e] == s.users[e]
    ensures s'.nextId == s.nextId && s'.accounts == s.accounts
    ensures s'.tokens == s.tokens && s'.sessions == s.sessions
  {
    s.(users := s.users[email := s.users[email].(loginAs := Some(provider))])
  }

  lemma MarkLoginAsPreservesConsistency(s: State, email: string, provider: string)
    requires Consistent(s) && email in s.users
    ensures Consistent(MarkLoginAs(s, email, provider))
  {
  }

  /**
   * `$user->delete()` on the user with id `id`. The rows of `social_accounts`
   * owned by that user go too: the foreign key is taken to cascade.
   */
  function DeleteUser(s: State, id: nat): (s': State)
    ensures forall e :: e in s'.users <==> e in s.users && s.users[e].id != id
    ensures forall e | e in s'.users :: s'.users[e] == s.users[e]
    ensures forall i | 0 <= i < |s'.accounts| :: s'.accounts[i].userId != id
    ensures forall a | a in s.accounts && a.userId != id :: a in s'.accounts
    ensures s'.nextId == s.nextId && s'.tokens == s.tokens && s'.sessions == s.sessions
  {
    s.(users := map e | e in s.users && s.users[e].id != id :: s.users[e],
       accounts := WithoutOwner(s.accounts, id))
  }

  /** The rows not owned by `id`, in their order. */
  function WithoutOwner(rows: seq<SocialAccount>, id: nat): (r: seq<SocialAccount>)
    ensures forall i | 0 <= i < |r| :: r[i].userId != id && r[i] in rows
    ensures forall a | a in rows && a.userId != id :: a in r
  {
    if rows == [] then []
    else if rows[0].userId == id then WithoutOwner(rows[1..], id)
    else [rows[0]] + WithoutOwner(rows[1..], id)
  }

  /**
   * Dropping the rows of `id` empties every key of that owner and leaves the
   * number of rows of every other key as it was.
   */
  lemma {:induction false} WithoutOwnerCount(rows: seq<SocialAccount>, id: nat, k: AccountKey)
    ensures Count(WithoutOwner(rows, id), k) == if k.userId == id then 0 else Count(rows, k)
  {
    if rows != [] {
      WithoutOwnerCount(rows[1..], id, k);
      if rows[0].userId != id {
        assert ([rows[0]] + WithoutOwner(rows[1..], id))[1..] == WithoutOwner(rows[1..], id);
      }
    }
  }

  /** Deleting a user keeps the store consistent (no dangling social account). */
  lemma DeletePreservesConsistency(s: State, id: nat)
    requires Consistent(s)
    ensures Consistent(DeleteUser(s, id))
  {
    var s' := DeleteUser(s, id);
    forall k ensures Count(s'.accounts, k) <= 1 {
      WithoutOwnerCount(s.accounts, id, k);
    }
    forall i | 0 <= i < |s'.accounts| ensures s'.accounts[i].userId in UserIds(s'.users) {
      var a := s'.accounts[i];
      var j :| 0 <= j < |s.accounts| && s.accounts[j] == a;
      assert a.userId in UserIds(s.users);
      var e :| e in s.users && s.users[e].id == a.userId;
      assert e in s'.users;
    }
  }

  /** When the deleted user is in the store, exactly that user's row goes. */
  lemma DeleteRemovesExactlyThatUser(s: State, u: User)
    requires Consistent(s) && u.email in s.users && s.users[u.email] == u
    ensures DeleteUser(s, u.id).users == s.users - {u.email}
    ensures |DeleteUser(s, u.id).users| == |s.users| - 1
  {
  }

  // ------------------------------------------------------- social accounts

  /**
   * `$user->socialAccounts()->updateOrCreate(key, ['provider_avatar' => avatar])`:
   * the first row matching `key` gets the new avatar; with no match a row is
   * appended.
   */
  function UpdateOrCreate(rows: seq<SocialAccount>, k: AccountKey, avatar: string): (r: seq<SocialAccount>)
    ensures |r| == |rows| + (if Count(rows, k) == 0 then 1 else 0)
  {
    if rows == [] then [SocialAccount(k.provider, k.providerId, k.userId, avatar)]
    else if KeyOf(rows[0]) == k then [rows[0].(avatar := avatar)] + rows[1..]
    else [rows[0]] + UpdateOrCreate(rows[1..], k, avatar)
  }

  /**
   * What `updateOrCreate` does, position by position: with a matching row,
   * the rows are unchanged except that one row's avatar; otherwise the new
   * row is appended.
   */
  lemma {:induction false} UpdateOrCreateShape(rows: seq<SocialAccount>, k: AccountKey, avatar: string)
    ensures Count(rows, k) == 0 ==>
      UpdateOrCreate(rows, k, avatar) == rows + [SocialAccount(k.provider, k.providerId, k.userId, avatar)]
    ensures Count(rows, k) > 0 ==>
      exists i | 0 <= i < |rows| :: KeyOf(rows[i]) == k
        && UpdateOrCreate(rows, k, avatar) == rows[i := rows[i].(avatar := avatar)]
  {
    if rows != [] {
      UpdateOrCreateShape(rows[1..], k, avatar);
      var rest := UpdateOrCreate(rows[1..], k, avatar);
      if KeyOf(rows[0]) == k {
        assert UpdateOrCreate(rows, k, avatar) == rows[0 := rows[0].(avatar := avatar)];
      } else if Count(rows[1..], k) == 0 {
        assert UpdateOrCreate(rows, k, avatar) == [rows[0]] + rest;
        assert [rows[0]] + (rows[1..] + [SocialAccount(k.provider, k.providerId, k.userId, avatar)])
            == rows + [SocialAccount(k.provider, k.providerId, k.userId, avatar)];
      } else {
        var j :| 0 <= j < |rows[1..]| && KeyOf(rows[1..][j]) == k
          && rest == rows[1..][j := rows[1..][j].(avatar := avatar)];
        assert UpdateOrCreate(rows, k, avatar) == rows[j + 1 := rows[j + 1].(avatar := avatar)];
      }
    }
  }

  /** After the upsert exactly one row more carries `k` when none did, and no other key's count moves. */
  lemma {:induction false} UpdateOrCreateCount(rows: seq<SocialAccount>, k: AccountKey, avatar: string, k': AccountKey)
    ensures Count(UpdateOrCreate(rows, k, avatar), k') ==
      Count(rows, k') + (if k' == k && Count(rows, k) == 0 then 1 else 0)
  {
    if rows != [] {
      UpdateOrCreateCount(rows[1..], k, avatar, k');
      var up := UpdateOrCreate(rows, k, avatar);
      if KeyOf(rows[0]) == k {
        assert up[1..] == rows[1..];
      } else {
        assert up[1..] == UpdateOrCreate(rows[1..], k, avatar);
      }
    } else {
      var up := UpdateOrCreate(rows, k, avatar);
      assert up[1..] == [];
    }
  }

  /** After the upsert the row for `k` carries the new avatar; other keys read as before. */
  lemma {:induction false} UpdateOrCreateAvatar(rows: seq<SocialAccount>, k: AccountKey, avatar: string, k': AccountKey)
    ensures AvatarOf(UpdateOrCreate(rows, k, avatar), k') == if k' == k then Some(avatar) else AvatarOf(rows, k')
  {
    if rows != [] {
      UpdateOrCreateAvatar(rows[1..], k, avatar, k');
      var up := UpdateOrCreate(rows, k, avatar);
      if KeyOf(rows[0]) == k {
        assert up[1..] == rows[1..];
      } else {
        assert up[1..] == UpdateOrCreate(rows[1..], k, avatar);
      }
    }
  }

  /** A second upsert of the same key overrides the first: the last avatar wins, nothing is duplicated. */
  lemma {:induction false} UpdateOrCreateLastWins(rows: seq<SocialAccount>, k: AccountKey, a: string, b: string)
    ensures UpdateOrCreate(UpdateOrCreate(rows, k, a), k, b) == UpdateOrCreate(rows, k, b)
  {
    if rows != [] && KeyOf(rows[0]) != k {
      UpdateOrCreateLastWins(rows[1..], k, a, b);
      var once := UpdateOrCreate(rows, k, a);
      assert once[0] == rows[0] && once[1..] == UpdateOrCreate(rows[1..], k, a);
    } else if rows != [] {
      var once := UpdateOrCreate(rows, k, a);
      assert once[0] == rows[0].(avatar := a) && once[1..] == rows[1..];
    }
  }

  /** Every row of the upsert's result is owned by an old row's owner or by the key's user. */
  lemma UpdateOrCreateOwners(rows: seq<SocialAccount>, k: AccountKey, avatar: string, i: nat)
    requires i < |UpdateOrCreate(rows, k, avatar)|
    ensures UpdateOrCreate(rows, k, avatar)[i].userId == k.userId
         || exists j | 0 <= j < |rows| :: rows[j].userId == UpdateOrCreate(rows, k, avatar)[i].userId
  {
    UpdateOrCreateShape(rows, k, avatar);
    if Count(rows, k) > 0 {
      var j :| 0 <= j < |rows| && KeyOf(rows[j]) == k
        && UpdateOrCreate(rows, k, avatar) == rows[j := rows[j].(avatar := avatar)];
      assert UpdateOrCreate(rows, k, avatar)[i].userId == rows[i].userId;
    } else if i < |rows| {
      assert UpdateOrCreate(rows, k, avatar)[i] == rows[i];
    }
  }

  /** The upsert for an existing user keeps the store consistent. */
  lemma UpdateOrCreatePreservesConsistency(s: State, k: AccountKey, avatar: string)
    requires Consistent(s) && k.userId in UserIds(s.users)
    ensures Consistent(s.(accounts := UpdateOrCreate(s.accounts, k, avatar)))
  {
    var up := UpdateOrCreate(s.accounts, k, avatar);
    forall k' ensures Count(up, k') <= 1 {
      UpdateOrCreateCount(s.accounts, k, avatar, k');
    }
    forall i | 0 <= i < |up| ensures up[i].userId in UserIds(s.users) {
      UpdateOrCreateOwners(s.accounts, k, avatar, i);
    }
  }

  // ---------------------------------------------------------------- sessions

  /** `$user->createToken(name)`: one more token row for the user. */
  function IssueToken(s: State, userId: nat, name: string): (s': State)
    ensures s'.tokens == s.tokens + [AccessToken(userId, name)]
    ensures s'.users == s.users && s'.nextId == s.nextId
    ensures s'.accounts == s.accounts && s'.sessions == s.sessions
  {
    s.(tokens := s.tokens + [AccessToken(userId, name)])
  }

  /** `Auth::login($user, $remember)`. */
  function LogIn(s: State, userId: nat, remember: bool): (s': State)
    ensures s'.sessions == s.sessions + {Session(userId, remember)}
    ensures s'.users == s.users && s'.nextId == s.nextId
    ensures s'.accounts == s.accounts && s'.tokens == s.tokens
  {
    s.(sessions := s.sessions + {Session(userId, remember)})
  }

  /** The database, updated in place by the controllers. */
  class Database {
    var users: map<string, User>
    var nextId: nat
    var accounts: seq<SocialAccount>
    var tokens: seq<AccessToken>
    var sessions: set<Session>

    function Snapshot(): State
      reads this
    {
      State(users, nextId, accounts, tokens, sessions)
    }

    ghost predicate Valid()
      reads this
    {
      Consistent(Snapshot())
    }

    constructor ()
      ensures Snapshot() == Empty && Valid()
    {
      users, nextId, accounts, tokens, sessions := map[], 1, [], [], {};
    }

    method FirstOrCreate(email: string, name: string, password: string) returns (u: User)
      modifies this
      ensures (Snapshot(), u) == FirstOrCreateUser(old(Snapshot()), email, name, password)
      ensures old(Valid()) ==> Valid()
    {
      if email in users {
        u := users[email];
      } else {
        u := User(nextId, name, email, password, None);
        users := users[email := u];
        nextId := nextId + 1;
      }
      if old(Valid()) {
        FirstOrCreatePreservesConsistency(old(Snapshot()), email, name, password);
      }
    }

    method UpdateOrCreateAccount(k: AccountKey, avatar: string)
      requires Valid() && k.userId in UserIds(users)
      modifies this
      ensures Snapshot() == old(Snapshot()).(accounts := UpdateOrCreate(old(accounts), k, avatar))
      ensures Valid()
    {
      accounts := UpdateOrCreate(accounts, k, avatar);
      UpdateOrCreatePreservesConsistency(old(Snapshot()), k, avatar);
    }

    method UpdateLoginAs(email: string, provider: string)
      requires Valid() && email in users
      modifies this
      ensures Snapshot() == MarkLoginAs(old(Snapshot()), email, provider)
      ensures Valid()
    {
      users := users[email := users[email].(loginAs := Some(provider))];
      MarkLoginAsPreservesConsistency(old(Snapshot()), email, provider);
    }

    method CreateToken(userId: nat, name: string)
      modifies this
      ensures Snapshot() == IssueToken(old(Snapshot()), userId, name)
      ensures old(Valid()) ==> Valid()
    {
      tokens := tokens + [AccessToken(userId, name)];
    }

    method Login(userId: nat, remember: bool)
      modifies this
      ensures Snapshot() == LogIn(old(Snapshot()), userId, remember)
      ensures old(Valid()) ==> Valid()
    {
      sessions := sessions + {Session(userId, remember)};
    }

    method Delete(id: nat)
      requires Valid()
      modifies this
      ensures Snapshot() == DeleteUser(old(Snapshot()), id)
      ensures Valid()
    {
      users := map e | e in users && users[e].id != id :: users[e];
      accounts := WithoutOwner(accounts, id);
      DeletePreservesConsistency(old(Snapshot()), id);
    }
  }
}
