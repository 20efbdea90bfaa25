/**
 * `App\Http\Controllers\api\Auth\SocialAuthController`: the redirect leg and
 * the callback that links a provider profile to a local user and issues a
 * token (JSON clients) or a session (browsers).
 *
 * Socialite is not modelled: its answers are parameters. `driver` is the
 * authorization URL Socialite computes for the provider, or the exception it
 * raises; `exchange` is the profile `->user()` returns, or its exception.
 * Socialite cannot resolve a null driver, so a missing provider always comes
 * with a failed exchange.
 */
module SocialAuthController {
  import opened Wrappers
  import opened Php
  import opened Models
  import opened Store
  import opened ApiSuccess
  import opened ApiError
  import opened Http
  import ProviderGuard

  /** The profile Socialite hands back: `getId`, `getName`, `getEmail`, `getAvatar`. */
  datatype Profile = Profile(id: string, name: string, email: string, avatar: string)

  /** The steps of the callback after the exchange, in order, that may throw. */
  datatype Step = FindOrCreateUser | LinkAccount | RecordProvider | CreateToken | StartSession

  /** The exception the storage or session layer raises, if any, and at which step. */
  datatype Fault = NoFault | FailAt(step: Step, th: Throwable)

  const TOKEN_TYPE := "Beater"
  const DEFAULT_TOKEN_NAME := "auth_api_token"
  const LANDING_URL := "http://localhost:3000/auth/social-callback?provider="

  predicate Fails(fault: Fault, step: Step) {
    fault.FailAt? && fault.step == step
  }

  /** The catch-all: any throwable becomes an error envelope with the generic message. */
  function Caught(th: Throwable): Response {
    ErrorEnvelope(ApiErrorResponse(th, GENERIC_MESSAGE))
  }

  /** `$request->device_name ?? 'auth_api_token'`. */
  function TokenName(req: Request): string {
    match req.deviceName
    case Some(n) => n
    case None => DEFAULT_TOKEN_NAME
  }

  /** The front-end landing page; the provider is its only query parameter. */
  function LandingUrl(provider: string): string {
    LANDING_URL + provider
  }

  /** `redirect`: JSON clients get the stateless authorization URL as data, browsers are redirected. */
  function Redirect(req: Request, driver: Result<string, Throwable>): (r: Response)
    requires req.provider.None? ==> driver.Failure?
    ensures driver.Failure? ==> r == Unhandled(driver.error)
    ensures driver.Success? && WantsJson(req) ==>
      r.SuccessEnvelope? && r.ok.data == Arr(map["url" := Str(driver.value)])
      && r.ok.metadata == map[] && r.ok.code == HTTP_OK && r.ok.headers == map[]
    ensures driver.Success? && !WantsJson(req) ==>
      r == RedirectTo(ProviderAuthorization(req.provider.value))
  {
    match driver
    case Failure(th) => Unhandled(th)
    case Success(url) =>
      if WantsJson(req) then SuccessEnvelope(ApiSuccessResponse(Arr(map["url" := Str(url)])))
      else RedirectTo(ProviderAuthorization(req.provider.value))
  }

  /** In JSON mode the redirect leg renders `{data: {url}}` with status 200 under the default wrap. */
  lemma RedirectJsonBody(req: Request, url: string)
    requires req.provider.Some? && WantsJson(req)
    ensures var r := Redirect(req, Success(url));
      ApiSuccess.ToResponse(r.ok, false) ==
        Some(JsonResponse(Arr(map["data" := Arr(map["url" := Str(url)])]), HTTP_OK, map[]))
  {
    var r := Redirect(req, Success(url));
    assert Truthy(r.ok.data) by { assert "url" in r.ok.data.entries; }
    var out := ApiSuccess.ToResponse(r.ok, false);
    assert out.value.body.entries.Keys == {"data"};
  }

  /** The success envelope of a JSON-mode callback. */
  function TokenEnvelope(token: string): ApiSuccessResponse {
    ApiSuccessResponse(Arr(map["access_token" := Str(token), "token_type" := Str(TOKEN_TYPE)]))
  }

  /**
   * `callback` as a function of the store. `password` is the hash of the
   * random filler password a new user gets; `token` is the plain text of the
   * token Sanctum mints. Each step's writes stay when a later step throws.
   */
  function CallbackSpec(s: State, req: Request, exchange: Result<Profile, Throwable>,
                        password: string, token: string, fault: Fault): (r: (State, Response))
    requires req.provider.None? ==> exchange.Failure?
    ensures exchange.Failure? ==> r == (s, Caught(exchange.error))
    ensures r.1.ErrorEnvelope? ==>
      r.1.err.message == GENERIC_MESSAGE && r.1.err.code == HTTP_INTERNAL_SERVER_ERROR
    ensures exchange.Success? && !r.1.ErrorEnvelope? ==>
      && (fault.FailAt? ==> fault.step == CreateToken || fault.step == StartSession)
      && exchange.value.email in r.0.users
      && r.0.users[exchange.value.email].loginAs == req.provider
      && r.1 == if WantsJson(req) then SuccessEnvelope(TokenEnvelope(token))
                else RedirectTo(To(LandingUrl(req.provider.value)))
  {
    match exchange
    case Failure(th) => (s, Caught(th))
    case Success(p) =>
      var provider := req.provider.value;
      if Fails(fault, FindOrCreateUser) then (s, Caught(fault.th)) else
      var (s1, u) := FirstOrCreateUser(s, p.email, p.name, password);
      if Fails(fault, LinkAccount) then (s1, Caught(fault.th)) else
      var s2 := s1.(accounts := UpdateOrCreate(s1.accounts, AccountKey(provider, p.id, u.id), p.avatar));
      if Fails(fault, RecordProvider) then (s2, Caught(fault.th)) else
      var s3 := MarkLoginAs(s2, p.email, provider);
      if WantsJson(req) then
        if Fails(fault, CreateToken) then (s3, Caught(fault.th))
        else (IssueToken(s3, u.id, TokenName(req)), SuccessEnvelope(TokenEnvelope(token)))
      else
        if Fails(fault, StartSession) then (s3, Caught(fault.th))
        else (LogIn(s3, u.id, true), RedirectTo(To(LandingUrl(provider))))
  }

  /** `callback`, performing the steps on the database in place. */
  method Callback(db: Database, req: Request, exchange: Result<Profile, Throwable>,
                  password: string, token: string, fault: Fault) returns (r: Response)
    requires db.Valid()
    requires req.provider.None? ==> exchange.Failure?
    modifies db
    ensures (db.Snapshot(), r) == CallbackSpec(old(db.Snapshot()), req, exchange, password, token, fault)
    ensures db.Valid()
  {
    if exchange.Failure? {
      return Caught(exchange.error);
    }
    var p := exchange.value;
    var provider := req.provider.value;
    if Fails(fault, FindOrCreateUser) {
      return Caught(fault.th);
    }
    var u := db.FirstOrCreate(p.email, p.name, password);
    if Fails(fault, LinkAccount) {
      return Caught(fault.th);
    }
    assert u.id in UserIds(db.users) by { assert db.users[p.email] == u; }
    db.UpdateOrCreateAccount(AccountKey(provider, p.id, u.id), p.avatar);
    if Fails(fault, RecordProvider) {
      return Caught(fault.th);
    }
    db.UpdateLoginAs(p.email, provider);
    if WantsJson(req) {
      if Fails(fault, CreateToken) {
        return Caught(fault.th);
      }
      db.CreateToken(u.id, TokenName(req));
      return SuccessEnvelope(TokenEnvelope(token));
    } else {
      if Fails(fault, StartSession) {
        return Caught(fault.th);
      }
      db.Login(u.id, true);
    }
    r := RedirectTo(To(LandingUrl(provider)));
  }

  // ------------------------------------------------------------ properties

  /** Every callback, whatever fails, leaves the store consistent. */
  lemma CallbackPreservesConsistency(s: State, req: Request, exchange: Result<Profile, Throwable>,
                                     password: string, token: string, fault: Fault)
    requires Consistent(s)
    requires req.provider.None? ==> exchange.Failure?
    ensures Consistent(CallbackSpec(s, req, exchange, password, token, fault).0)
  {
    if exchange.Success? {
      var p := exchange.value;
      FirstOrCreatePreservesConsistency(s, p.email, p.name, password);
      var (s1, u) := FirstOrCreateUser(s, p.email, p.name, password);
      assert u.id in UserIds(s1.users) by { assert s1.users[p.email] == u; }
      var k := AccountKey(req.provider.value, p.id, u.id);
      UpdateOrCreatePreservesConsistency(s1, k, p.avatar);
      var s2 := s1.(accounts := UpdateOrCreate(s1.accounts, k, p.avatar));
      MarkLoginAsPreservesConsistency(s2, p.email, req.provider.value);
    }
  }

  /** A failed profile exchange changes nothing and answers with the generic error. */
  lemma ExchangeFailureChangesNothing(s: State, req: Request, th: Throwable,
                                      password: string, token: string, fault: Fault)
    ensures CallbackSpec(s, req, Failure(th), password, token, fault) == (s, Caught(th))
  {
  }

  /**
   * A callback that answers without an error had a profile, and the user
   * with the profile's email now has `login_as` equal to the route provider.
   */
  lemma SuccessfulCallbackRecordsProvider(s: State, req: Request, exchange: Result<Profile, Throwable>,
                                          password: string, token: string, fault: Fault)
    requires req.provider.None? ==> exchange.Failure?
    requires !CallbackSpec(s, req, exchange, password, token, fault).1.ErrorEnvelope?
    ensures exchange.Success? && req.provider.Some?
    ensures var s' := CallbackSpec(s, req, exchange, password, token, fault).0;
      exchange.value.email in s'.users && s'.users[exchange.value.email].loginAs == req.provider
  {
  }

  /**
   * User resolution: an existing user with the profile's email is reused with
   * its name and password untouched; otherwise exactly one user is created,
   * named after the profile. No other user changes.
   */
  lemma CallbackResolvesUserByEmail(s: State, req: Request, p: Profile, password: string, token: string)
    requires Consistent(s) && req.provider.Some?
    ensures var s' := CallbackSpec(s, req, Success(p), password, token, NoFault).0;
      && p.email in s'.users
      && s'.users.Keys == s.users.Keys + {p.email}
      && (forall e | e in s.users && e != p.email :: s'.users[e] == s.users[e])
      && (p.email in s.users ==>
            s'.users[p.email] == s.users[p.email].(loginAs := req.provider) && s'.nextId == s.nextId)
      && (p.email !in s.users ==>
            s'.users[p.email] == User(s.nextId, p.name, p.email, password, req.provider)
            && s'.nextId == s.nextId + 1)
  {
  }

  /**
   * The social account for (provider, profile id, user) is the only row with
   * that key and carries the profile's avatar; all other rows are as before
   * except that one avatar, or the row was appended.
   */
  lemma CallbackLinksAccount(s: State, req: Request, p: Profile, password: string, token: string)
    requires Consistent(s) && req.provider.Some?
    ensures var s' := CallbackSpec(s, req, Success(p), password, token, NoFault).0;
      var k := AccountKey(req.provider.value, p.id, s'.users[p.email].id);
      && Count(s'.accounts, k) == 1
      && AvatarOf(s'.accounts, k) == Some(p.avatar)
      && (Count(s.accounts, k) == 0 ==>
            s'.accounts == s.accounts + [SocialAccount(k.provider, k.providerId, k.userId, p.avatar)])
      && (Count(s.accounts, k) == 1 ==>
            exists i | 0 <= i < |s.accounts| :: KeyOf(s.accounts[i]) == k
              && s'.accounts == s.accounts[i := s.accounts[i].(avatar := p.avatar)])
  {
    var (s1, u) := FirstOrCreateUser(s, p.email, p.name, password);
    var k := AccountKey(req.provider.value, p.id, u.id);
    UpdateOrCreateCount(s.accounts, k, p.avatar, k);
    UpdateOrCreateAvatar(s.accounts, k, p.avatar, k);
    UpdateOrCreateShape(s.accounts, k, p.avatar);
  }

  /**
   * JSON mode: the answer is `{access_token, token_type: 'Beater'}` and one
   * token named after the device (or 'auth_api_token') is added for the
   * user; no session is started. Under the default wrap it renders as
   * `{data: {...}}` with status 200.
   */
  lemma JsonCallbackIssuesToken(s: State, req: Request, p: Profile, password: string, token: string)
    requires req.provider.Some? && WantsJson(req)
    ensures var (s', r) := CallbackSpec(s, req, Success(p), password, token, NoFault);
      && r == SuccessEnvelope(TokenEnvelope(token))
      && s'.tokens == s.tokens + [AccessToken(s'.users[p.email].id, TokenName(req))]
      && s'.sessions == s.sessions
      && ApiSuccess.ToResponse(r.ok, false) == Some(JsonResponse(
           Arr(map["data" := Arr(map["access_token" := Str(token), "token_type" := Str("Beater")])]),
           HTTP_OK, map[]))
  {
    var env := TokenEnvelope(token);
    assert Truthy(env.data) by { assert "token_type" in env.data.entries; }
    var out := ApiSuccess.ToResponse(env, false);
    assert out.value.body.entries.Keys == {"data"};
  }

  /** The token is named by `device_name`, or 'auth_api_token' when that is absent. */
  lemma TokenNameDefault(req: Request)
    ensures req.deviceName.Some? ==> TokenName(req) == req.deviceName.value
    ensures req.deviceName.None? ==> TokenName(req) == "auth_api_token"
  {
  }

  /**
   * Browser mode: the user is logged in with "remember me", no token is
   * minted, and the redirect goes to the landing page with the provider as
   * its only query parameter; the answer does not depend on the token value.
   */
  lemma BrowserCallbackStartsSession(s: State, req: Request, p: Profile, password: string,
                                     token: string, other: string)
    requires req.provider.Some? && !WantsJson(req)
    ensures var (s', r) := CallbackSpec(s, req, Success(p), password, token, NoFault);
      && s'.sessions == s.sessions + {Session(s'.users[p.email].id, true)}
      && s'.tokens == s.tokens
      && r == RedirectTo(To("http://localhost:3000/auth/social-callback?provider=" + req.provider.value))
      && CallbackSpec(s, req, Success(p), password, other, NoFault) == (s', r)
  {
  }

  /**
   * Writes made before a failing step are not rolled back: once the user
   * step has run the user exists, once the link step has run the account
   * row exists, and once `login_as` is written it stays written, even though
   * the answer is the generic error. A failing step writes nothing itself:
   * the accounts stay as they were when the link step fails, `login_as` when
   * the record step fails, and no token or session appears on any failure.
   */
  lemma LaterFailureKeepsEarlierWrites(s: State, req: Request, p: Profile, password: string,
                                       token: string, step: Step, th: Throwable)
    requires req.provider.Some? && step != FindOrCreateUser
    ensures var r := CallbackSpec(s, req, Success(p), password, token, FailAt(step, th)).1;
      r == Caught(th) <==> !(WantsJson(req) && step == StartSession) && !(!WantsJson(req) && step == CreateToken)
    ensures var (s', r) := CallbackSpec(s, req, Success(p), password, token, FailAt(step, th));
      && p.email in s'.users
      && (step != LinkAccount ==>
            AvatarOf(s'.accounts, AccountKey(req.provider.value, p.id, s'.users[p.email].id)) == Some(p.avatar))
      && (step == LinkAccount ==> s'.accounts == s.accounts)
      && (step == RecordProvider ==>
            s'.users[p.email].loginAs == if p.email in s.users then s.users[p.email].loginAs else None)
      && ((step == CreateToken || step == StartSession) ==> s'.users[p.email].loginAs == req.provider)
      && (r == Caught(th) ==> s'.tokens == s.tokens && s'.sessions == s.sessions)
  {
    var (s1, u) := FirstOrCreateUser(s, p.email, p.name, password);
    UpdateOrCreateAvatar(s1.accounts, AccountKey(req.provider.value, p.id, u.id), p.avatar,
                         AccountKey(req.provider.value, p.id, u.id));
  }

  /**
   * Repeating a callback for the same provider identity and email adds no
   * user and no row: the one row for the key now has the second avatar, and
   * the user's name and password stay those of the first.
   */
  lemma RepeatedCallbackIsIdempotent(s: State, req: Request, p: Profile, req2: Request, p2: Profile,
                                     pw: string, pw2: string, t: string, t2: string)
    requires Consistent(s) && req.provider.Some? && req2.provider == req.provider
    requires p2.id == p.id && p2.email == p.email
    ensures var s1 := CallbackSpec(s, req, Success(p), pw, t, NoFault).0;
      var s2 := CallbackSpec(s1, req2, Success(p2), pw2, t2, NoFault).0;
      var k := AccountKey(req.provider.value, p.id, s1.users[p.email].id);
      && s2.users.Keys == s1.users.Keys && s2.nextId == s1.nextId
      && s2.users[p.email].id == s1.users[p.email].id
      && s2.users[p.email].name == s1.users[p.email].name
      && s2.users[p.email].password == s1.users[p.email].password
      && |s2.accounts| == |s1.accounts|
      && Count(s2.accounts, k) == 1
      && AvatarOf(s2.accounts, k) == Some(p2.avatar)
  {
    CallbackPreservesConsistency(s, req, Success(p), pw, t, NoFault);
    var s1 := CallbackSpec(s, req, Success(p), pw, t, NoFault).0;
    CallbackLinksAccount(s, req, p, pw, t);
    CallbackLinksAccount(s1, req2, p2, pw2, t2);
    CallbackResolvesUserByEmail(s1, req2, p2, pw2, t2);
    var k := AccountKey(req.provider.value, p.id, s1.users[p.email].id);
    UpdateOrCreateShape(s1.accounts, k, p2.avatar);
  }

  /**
   * Two callbacks from different providers reporting the same email resolve
   * to the same user, who then owns a row for each provider.
   */
  lemma SameEmailMergesAccounts(s: State, req: Request, p: Profile, req2: Request, p2: Profile,
                                pw: string, pw2: string, t: string, t2: string)
    requires Consistent(s) && req.provider.Some? && req2.provider.Some?
    requires req.provider != req2.provider && p2.email == p.email
    ensures var s1 := CallbackSpec(s, req, Success(p), pw, t, NoFault).0;
      var s2 := CallbackSpec(s1, req2, Success(p2), pw2, t2, NoFault).0;
      var uid := s1.users[p.email].id;
      && s2.users[p.email].id == uid
      && Count(s2.accounts, AccountKey(req.provider.value, p.id, uid)) == 1
      && Count(s2.accounts, AccountKey(req2.provider.value, p2.id, uid)) == 1
      && exists i, j | 0 <= i < |s2.accounts| && 0 <= j < |s2.accounts| ::
           i != j && s2.accounts[i].userId == uid && s2.accounts[j].userId == uid
           && s2.accounts[i].provider == req.provider.value && s2.accounts[j].provider == req2.provider.value
  {
    CallbackPreservesConsistency(s, req, Success(p), pw, t, NoFault);
    var s1 := CallbackSpec(s, req, Success(p), pw, t, NoFault).0;
    var uid := s1.users[p.email].id;
    var k1 := AccountKey(req.provider.value, p.id, uid);
    var k2 := AccountKey(req2.provider.value, p2.id, uid);
    CallbackLinksAccount(s, req, p, pw, t);
    CallbackLinksAccount(s1, req2, p2, pw2, t2);
    CallbackResolvesUserByEmail(s1, req2, p2, pw2, t2);
    UpdateOrCreateCount(s1.accounts, k2, p2.avatar, k1);
    var s2 := CallbackSpec(s1, req2, Success(p2), pw2, t2, NoFault).0;
    var i := CountWitness(s2.accounts, k1);
    var j := CountWitness(s2.accounts, k2);
  }

  /**
   * Only when the allow-list guard runs in front of the callback (the routes
   * do not attach it): a successful callback records a listed provider.
   */
  lemma GuardedCallbackRecordsListedProvider(s: State, req: Request, exchange: Result<Profile, Throwable>,
                                             password: string, token: string, fault: Fault)
    requires ProviderGuard.Handle(req).PassThrough?
    requires !CallbackSpec(s, req, exchange, password, token, fault).1.ErrorEnvelope?
    ensures var s' := CallbackSpec(s, req, exchange, password, token, fault).0;
      s'.users[exchange.value.email].loginAs.value in PROVIDERS
  {
  }

  /**
   * Google user 42 with email a@x.com signs in twice on a fresh store, the
   * avatar changing from img/1 to img/2: one user, one social account, with
   * the second avatar.
   */
  lemma ReauthenticationExample()
    ensures var req := Request(Some("google"), false, true, None);
      var s1 := CallbackSpec(Empty, req, Success(Profile("42", "A", "a@x.com", "http://img/1")), "h1", "t1", NoFault).0;
      var s2 := CallbackSpec(s1, req, Success(Profile("42", "A", "a@x.com", "http://img/2")), "h2", "t2", NoFault).0;
      && s2.users.Keys == {"a@x.com"}
      && s2.users["a@x.com"] == User(1, "A", "a@x.com", "h1", Some("google"))
      && s2.accounts == [SocialAccount("google", "42", 1, "http://img/2")]
  {
  }
}
