# Social login pipeline of laravel-socialite-nuxt, modelled in Dafny

This project models the server side of the social-login API. It covers the following parts:

- the provider allow-list (`SocialAccount::PROVIDERS`) and the middleware that gates requests on it;
- the redirect leg of `SocialAuthController`;
- the callback, which turns a provider profile into a local user, a social-account row, a `login_as` mark, and then a bearer token (JSON clients) or a remembered session (browsers);
- the success and error response envelopes;
- the user projection `UserResource`, and the `show` and `destroy` actions of `UserController`.

Modules, one per source file or shared notion:

| file | module | models |
|---|---|---|
| `wrappers.dfy` | `Wrappers` | `Option`, `Result` |
| `php.dfy` | `Php` | PHP values, truthiness, `$a[k] = v`, `Throwable`, `response()->json` |
| `models.dfy` | `Models` | `User`, `SocialAccount`, `PROVIDERS`, `in_array` |
| `store.dfy` | `Store` | the tables, the Eloquent operations as functions, class `Database` |
| `api_success_response.dfy` | `ApiSuccess` | `ApiSuccessResponse` |
| `api_error_response.dfy` | `ApiError` | `ApiErrorResponse` |
| `http.dfy` | `Http` | request attributes, response kinds |
| `middleware.dfy` | `ProviderGuard` | `SocialMediaOAuthMiddleware::handle` |
| `user_resource.dfy` | `UserResource` | `UserResource::toArray` |
| `social_auth_controller.dfy` | `SocialAuthController` | `redirect`, `callback` |
| `user_controller.dfy` | `UserController` | `index`, `store`, `show`, `update`, `destroy` |

The store is the class `Store.Database`. Its fields are the tables:

- `users`: email to `User`;
- `accounts`: the sequence of `social_accounts` rows;
- `tokens`: the personal access tokens;
- `sessions`: the authenticated sessions.

Each Eloquent call the controllers make is a method of `Database`. Each method is specified by a function on the value `State` that `Snapshot()` returns. The controller methods `Callback` and `Destroy` perform the steps in place. Each is tied by its postcondition to a specification function (`CallbackSpec`, `DestroySpec`), and the lemmas state the properties in terms of those functions.

Some collaborators are passed in as parameters rather than modelled:

- **Socialite:** the profile exchange is `exchange: Result<Profile, Throwable>`, and the authorization URL is `driver: Result<string, Throwable>`.
- **Random password hash and token plain text:** both are plain parameters.
- **`config('app.debug')` and `is_null(JsonResource::$wrap)`:** both are booleans.
- **Failures of the database, of `createToken` and of `Auth::login`:** a `Fault` parameter names the step that throws.

A thrown exception is caught as a generic error envelope. The writes of the steps before it stay.

Behaviour of the code worth noting:

- The social-account upsert key is `(provider, provider_id, user_id)`, so two users may each hold a row for the same `(provider, provider_id)`.
- The token type is the literal `'Beater'`, as written. The commented-out line below it spells `Bearer`.
- The guard's 403 body is `{error: 'Invalid service provider'}`, a string under `error` rather than a nested object.
- The guard tests `expectsJson()` alone. The controller tests `isJson() || expectsJson()`. The two stay separate.
- The routes do not attach the guard. Its composition with the callback appears only in `GuardedCallbackRecordsListedProvider`, as a stated assumption.
- Users are matched on the email exactly as given.
- A user created by the callback gets the hash of a random password.
- `UserController::destroy` deletes the bound user; its social accounts go with it (see `Store.DeleteUser` under Left out).
- The `SocialAccount` object built at `SocialAuthController.php:61-64` is never saved. It has no counterpart in the model.
- `in_array` is PHP's loose comparison. For a null or string provider, null equals only `""`, and no entry of `PROVIDERS` is a numeric string, so membership is exact, case-sensitive string equality. Other provider kinds are under Left out (`ProviderGuard.Handle`).
- With a null wrap, the success body is the data itself. Metadata is then merged into it as one more key. If the data is a non-array scalar, PHP raises an Error (the `None` result of `ApiSuccess.ToResponse`). So "a `metadata` key iff metadata is non-empty" is stated only for a non-null wrap.

## Model

| member | source | states |
|---|---|---|
| `Php.Truthy` | api/app/Response/ApiSuccessResponse.php:23-31 | a value is falsy exactly when it is null, false, 0, "", "0" or the empty array |
| `Php.AssignKey` | api/app/Response/ApiSuccessResponse.php:32 | `$a[k] = v` succeeds exactly on arrays, null and false; the key then holds the value, and the other keys of an array are kept |
| `ApiSuccess.ToResponse` | api/app/Response/ApiSuccessResponse.php:11-40 | status and headers pass through; falsy data gives `{}` or `{metadata}`; with a wrap, the body has `data` exactly for truthy data and `metadata` exactly for non-empty metadata, both unchanged; with a null wrap, truthy data is the body itself, metadata is merged in, and only a scalar data value with metadata fails |
| `ApiError.ToResponse` | api/app/Response/ApiErrorResponse.php:11-35 | status and headers pass through; the body is exactly `{error: inner}`; with debug off, inner is exactly `{message: <given message>}`; with debug on, inner is `{message, file, line}` of the exception |
| `ApiError.MaskedResponseIgnoresException` | api/app/Response/ApiErrorResponse.php:21-28 | with debug off, the rendered response is the same whatever the exception |
| `ApiError.DebugResponseIgnoresMessage` | api/app/Response/ApiErrorResponse.php:22-27 | with debug on, the generic message is discarded |
| `Models.LooseEquals` | api/app/Http/Middleware/SocialMediaOAuthMiddleware.php:20 | null loosely equals only the empty string; a string equals a non-empty list entry only when identical |
| `Models.InArray` | api/app/Http/Middleware/SocialMediaOAuthMiddleware.php:20 | non-strict `in_array` is true iff some element loosely equals the needle |
| `Models.ProvidersDistinct` | api/app/Models/SocialAccount.php:12 | the allow-list has four entries, pairwise distinct |
| `Models.AllowListMembership` | api/app/Models/SocialAccount.php:12 | a provider is in the list iff it is one of facebook, google, linkedin, github; null never is |
| `Store.AccountBelongsToOneUser` | api/app/Models/SocialAccount.php:14-17 | in a consistent store, every social account's `user_id` names exactly one user |
| `Store.FirstOrCreateUser` | api/app/Http/Controllers/api/Auth/SocialAuthController.php:53-59 | a user with the email is returned as stored; otherwise a user with the next id, the given name and password hash and null `login_as` is added; the other tables are untouched |
| `Store.FirstOrCreatePreservesConsistency` | api/app/Http/Controllers/api/Auth/SocialAuthController.php:53-59 | find-or-create keeps emails and ids unique and every account owned |
| `Store.MarkLoginAs` | api/app/Http/Controllers/api/Auth/SocialAuthController.php:77 | only that user's `login_as` changes, to the provider; all other users and tables are unchanged |
| `Store.MarkLoginAsPreservesConsistency` | api/app/Http/Controllers/api/Auth/SocialAuthController.php:77 | the `login_as` update keeps the store consistent |
| `Store.DeleteUser` | api/app/Http/Controllers/api/UserController.php:54 | exactly the users with that id disappear, the others keep their rows; no remaining account refers to the id, and every account of another user stays |
| `Store.WithoutOwner` | api/app/Http/Controllers/api/UserController.php:54 | the cascaded rows: a row of the old table is kept exactly when another user owns it, and nothing new appears |
| `Store.WithoutOwnerCount` | api/app/Http/Controllers/api/UserController.php:54 | after the cascade every key of the deleted user has no row, and every other key has exactly as many rows as before |
| `Store.DeletePreservesConsistency` | api/app/Http/Controllers/api/UserController.php:54 | deleting a user leaves no dangling or duplicated social account |
| `Store.DeleteRemovesExactlyThatUser` | api/app/Http/Controllers/api/UserController.php:51-54 | deleting a stored user removes exactly its email key; the user count drops by one |
| `Store.CountWitness` | api/app/Http/Controllers/api/Auth/SocialAuthController.php:66-71 | a counted key has a row carrying it |
| `Store.UpdateOrCreate` | api/app/Http/Controllers/api/Auth/SocialAuthController.php:66-75 | the upsert adds a row exactly when no row carried the key, and otherwise keeps the length |
| `Store.UpdateOrCreateShape` | api/app/Http/Controllers/api/Auth/SocialAuthController.php:66-75 | with a matching row, the table is unchanged except that row's avatar; with none, the new row is appended |
| `Store.UpdateOrCreateCount` | api/app/Http/Controllers/api/Auth/SocialAuthController.php:66-75 | the key's row count becomes 1 when it was 0 and otherwise stays; no other key's count moves |
| `Store.UpdateOrCreateAvatar` | api/app/Http/Controllers/api/Auth/SocialAuthController.php:66-75 | afterwards the key reads the new avatar; every other key reads as before |
| `Store.UpdateOrCreateLastWins` | api/app/Http/Controllers/api/Auth/SocialAuthController.php:66-75 | two upserts of one key equal the second one alone, so repeating is idempotent |
| `Store.UpdateOrCreateOwners` | api/app/Http/Controllers/api/Auth/SocialAuthController.php:66-71 | every row after the upsert is owned by an old row's owner or by the key's user |
| `Store.UpdateOrCreatePreservesConsistency` | api/app/Http/Controllers/api/Auth/SocialAuthController.php:66-75 | an upsert for an existing user keeps keys unique and every row owned |
| `Store.IssueToken` | api/app/Http/Controllers/api/Auth/SocialAuthController.php:80 | exactly one token row for the user with that name is added; nothing else changes |
| `Store.LogIn` | api/app/Http/Controllers/api/Auth/SocialAuthController.php:88 | the session set gains exactly that user with that remember flag; nothing else changes |
| `Store.Database.FirstOrCreate` | api/app/Http/Controllers/api/Auth/SocialAuthController.php:53-59 | performs the find-or-create in place and keeps the invariant |
| `Store.Database.UpdateOrCreateAccount` | api/app/Http/Controllers/api/Auth/SocialAuthController.php:66-75 | performs the upsert in place and keeps the invariant |
| `Store.Database.UpdateLoginAs` | api/app/Http/Controllers/api/Auth/SocialAuthController.php:77 | performs the `login_as` update in place and keeps the invariant |
| `Store.Database.CreateToken` | api/app/Http/Controllers/api/Auth/SocialAuthController.php:80 | appends the token row in place |
| `Store.Database.Login` | api/app/Http/Controllers/api/Auth/SocialAuthController.php:88 | adds the session in place |
| `Store.Database.Delete` | api/app/Http/Controllers/api/UserController.php:54 | deletes the user (with cascade) in place and keeps the invariant |
| `ProviderGuard.Handle` | api/app/Http/Middleware/SocialMediaOAuthMiddleware.php:18-36 | passes the unchanged request on iff the provider is one of the four names (then it is in `PROVIDERS`); otherwise 403 `{error: 'Invalid service provider'}` when `expectsJson`, else a redirect back; rejection never reaches `next` |
| `ProviderGuard.RejectionIgnoresIsJson` | api/app/Http/Middleware/SocialMediaOAuthMiddleware.php:21 | a rejection does not depend on `isJson()`, only on `expectsJson()` |
| `UserResource.ToArray` | api/app/Http/Resources/api/UserResource.php:17-24 | the output has exactly the keys id, name, email, holding the user's fields unchanged, and is truthy |
| `UserResource.ProjectionHidesSecrets` | api/app/Http/Resources/api/UserResource.php:19-23 | two users project alike iff id, name and email agree, so password and `login_as` never show |
| `UserController.Index` | api/app/Http/Controllers/api/UserController.php:19-22 | returns null and changes nothing |
| `UserController.StoreUser` | api/app/Http/Controllers/api/UserController.php:27-30 | returns null and changes nothing |
| `UserController.Update` | api/app/Http/Controllers/api/UserController.php:43-46 | returns null and changes nothing |
| `UserController.Show` | api/app/Http/Controllers/api/UserController.php:35-38 | a default success envelope (200, no metadata, no headers) whose data is the user's projection |
| `UserController.ShowRendersProjection` | api/app/Http/Controllers/api/UserController.php:35-38 | renders as `{data: {id, name, email}}` with a wrap, as the projection itself without one, status 200 |
| `UserController.DestroySpec` | api/app/Http/Controllers/api/UserController.php:51-62 | an error envelope exactly when the delete throws, then with the exception, the generic message and 500 and the store unchanged; otherwise the users with that id are gone and the answer is a 204 success envelope with falsy data |
| `UserController.Destroy` | api/app/Http/Controllers/api/UserController.php:51-62 | performs the delete in place or, when it throws, changes nothing and returns the generic error envelope; keeps the invariant |
| `UserController.DestroySucceeds` | api/app/Http/Controllers/api/UserController.php:54-55 | a successful delete removes exactly the bound user, keeps all other users, keeps every social account of another user (per key, the same number of rows) and the invariant, and renders 204 with an empty body (no `data` key) |
| `UserController.DestroyFails` | api/app/Http/Controllers/api/UserController.php:56-60 | a failed delete changes nothing and renders 500 `{error: {message: generic}}` with debug off |
| `SocialAuthController.Redirect` | api/app/Http/Controllers/api/Auth/SocialAuthController.php:22-35 | JSON clients get a default success envelope with data exactly `{url}`; browsers get the provider redirect; a Socialite exception is not caught |
| `SocialAuthController.RedirectJsonBody` | api/app/Http/Controllers/api/Auth/SocialAuthController.php:27-31 | in JSON mode the answer renders as `{data: {url}}` with status 200 |
| `SocialAuthController.CallbackSpec` | api/app/Http/Controllers/api/Auth/SocialAuthController.php:37-95 | a failed exchange changes nothing and answers the caught error; every error answer carries the generic message and 500; an answer that is not an error comes after every write step, the profile's user then has `login_as` equal to the route provider, and the answer is the token envelope in JSON mode and the landing redirect otherwise |
| `SocialAuthController.Callback` | api/app/Http/Controllers/api/Auth/SocialAuthController.php:37-95 | performs exchange, find-or-create, upsert, `login_as`, token or session in order on the database, with the result and new state of `CallbackSpec`; keeps the invariant |
| `SocialAuthController.CallbackPreservesConsistency` | api/app/Http/Controllers/api/Auth/SocialAuthController.php:37-95 | every callback, failing at any step or not, leaves the store consistent |
| `SocialAuthController.ExchangeFailureChangesNothing` | api/app/Http/Controllers/api/Auth/SocialAuthController.php:42-46 | a failed profile exchange leaves the store unchanged and answers with the generic error envelope |
| `SocialAuthController.SuccessfulCallbackRecordsProvider` | api/app/Http/Controllers/api/Auth/SocialAuthController.php:77 | any callback that does not answer with an error had a profile, and that email's user has `login_as` equal to the route provider |
| `SocialAuthController.CallbackResolvesUserByEmail` | api/app/Http/Controllers/api/Auth/SocialAuthController.php:53-59 | an existing user keeps id, name and password (only `login_as` changes); otherwise exactly one user is created with the profile's name; other users are untouched |
| `SocialAuthController.CallbackLinksAccount` | api/app/Http/Controllers/api/Auth/SocialAuthController.php:66-75 | afterwards exactly one row has the (provider, id, user) key, with the profile's avatar; the table is the old one with that avatar changed, or with the row appended |
| `SocialAuthController.JsonCallbackIssuesToken` | api/app/Http/Controllers/api/Auth/SocialAuthController.php:79-84 | JSON mode answers `{access_token, token_type: 'Beater'}` (rendered under `data`, 200), adds one token named by the device for the user, and starts no session |
| `SocialAuthController.TokenNameDefault` | api/app/Http/Controllers/api/Auth/SocialAuthController.php:80 | the token is named by `device_name`, or `auth_api_token` when absent |
| `SocialAuthController.BrowserCallbackStartsSession` | api/app/Http/Controllers/api/Auth/SocialAuthController.php:87-91 | browser mode logs the user in with remember = true, mints no token, and redirects to the landing URL plus the provider; the answer is the same whatever the token value |
| `SocialAuthController.LaterFailureKeepsEarlierWrites` | api/app/Http/Controllers/api/Auth/SocialAuthController.php:53-94 | a failure after the user step answers with the generic error exactly when the failing step runs in that mode; the user stays, the linked account stays once the link step ran, and `login_as` holds the provider once the record step ran; a failing link step leaves the accounts as they were, a failing record step leaves `login_as` as it was, and no failure adds a token or a session |
| `SocialAuthController.RepeatedCallbackIsIdempotent` | api/app/Http/Controllers/api/Auth/SocialAuthController.php:53-75 | a second callback for the same provider identity adds no user and no row; the one row for the key has the new avatar; name and password are those of the first |
| `SocialAuthController.SameEmailMergesAccounts` | api/app/Http/Controllers/api/Auth/SocialAuthController.php:53-75 | callbacks from two providers with one email resolve to the same user, who then owns one row per provider |
| `SocialAuthController.GuardedCallbackRecordsListedProvider` | api/app/Http/Middleware/SocialMediaOAuthMiddleware.php:20-35 | under the assumption that the guard runs first, a successful callback records a provider from `PROVIDERS` |
| `SocialAuthController.ReauthenticationExample` | api/app/Http/Controllers/api/Auth/SocialAuthController.php:53-75 | google user 42 signing in twice with a new avatar leaves one user and one social account carrying the second avatar |

## Left out

- Socialite is not modelled: authorization-URL construction, OAuth state, and the code-for-profile exchange are parameters. The stateless exchange (JSON mode) and the stateful one (browser mode) are both the one `exchange` parameter.
- Because Socialite cannot resolve a null driver, `Redirect`, `Callback` and `CallbackSpec` require that a missing provider comes with a failing Socialite answer. This is a property of the collaborator, not a demand on HTTP clients.
- `Hash::make(Str::random(16))` is a parameter (`password`): randomness and hashing are not modelled.
- Sanctum is not modelled. Tokens are rows of (user, name), and the plain text is a parameter. Hashing, abilities and the `id|secret` format are left out.
- `Auth::login` is a set of (user, remember) sessions. Session storage and cookies are left out.
- `config('app.debug')`, `JsonResource::$wrap`, and an exception's file and line are parameters or fields, not global state.
- Concurrency and database unique constraints are not modelled: `firstOrCreate` and `updateOrCreate` are sequential operations on the in-memory store.
- The email lookup uses exact string equality. A database collation that compares case-insensitively is not modelled.
- Null profile fields are not modelled. A provider that reports no email, name or avatar is outside the model. Where such a value makes the database throw, that failure is covered by `Fault`.
- The User model's mass-assignment settings are not part of this model. `name`, `email`, `password` and `login_as` are taken to be fillable.
- `Store.DeleteUser`: the foreign key from `social_accounts.user_id` is taken to cascade on delete, because the migration is not part of this model. Tokens and sessions of a deleted user stay. A delete the database refuses is the `failure` parameter of `UserController.Destroy`.
- `ProviderGuard.Handle`: only a null or string provider is modelled. A provider taken from a JSON body can be a boolean or a number; under PHP 8 loose comparison `true == 'facebook'` holds, so the source's guard passes a request whose body carries `provider: true`, which the model cannot express.
- `Models.LooseEquals` is PHP's `==` only where the list entry is a non-numeric string, as every entry of `PROVIDERS` is; two numeric strings, which PHP compares as numbers, are not modelled.
- `$request->provider` is the resolved value. Laravel's precedence of input fields over the route parameter is not modelled.
- Floats, objects and integer-keyed (list) arrays are not among the modelled PHP values. `show` passes the `UserResource` as the array it serialises to.
- HTTP response objects, JSON serialisation and key order are not modelled. An empty array body is `Arr(map[])`.
- An uncaught exception from `redirect` is `Unhandled`. The framework's exception handler is not modelled.
- Routing (`api/routes/api.php`, `api/routes/web.php`) is not modelled, and neither are the client composables or `client/nuxt.config.ts`.
