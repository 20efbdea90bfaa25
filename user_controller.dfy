/** `App\Http\Controllers\api\UserController`. */
module UserController {
  import opened Wrappers
  import opened Php
  import opened Models
  import opened Store
  import opened ApiSuccess
  import opened ApiError
  import opened Http
  import UserResource

  /** `index`: an empty stub; it reads and writes nothing and returns null. */
  method Index(db: Database) returns (r: Response)
    ensures r == NoBody
  {
    r := NoBody;
  }

  /** `store`: an empty stub. */
  method StoreUser(db: Database, req: Request) returns (r: Response)
    ensures r == NoBody
  {
    r := NoBody;
  }

  /** `update`: an empty stub. */
  method Update(db: Database, req: Request, id: string) returns (r: Response)
    ensures r == NoBody
  {
    r := NoBody;
  }

  /** `show`: the user's projection in a default success envelope. */
  function Show(u: User): (r: Response)
    ensures r.SuccessEnvelope? && r.ok == ApiSuccessResponse(UserResource.ToArray(u))
    ensures r.ok.code == HTTP_OK && r.ok.metadata == map[] && r.ok.headers == map[]
  {
    SuccessEnvelope(ApiSuccessResponse(UserResource.ToArray(u)))
  }

  /** With the default wrap, `show` renders `{data: {id, name, email}}` with status 200. */
  lemma ShowRendersProjection(u: User)
    ensures ApiSuccess.ToResponse(Show(u).ok, false) ==
      Some(JsonResponse(Arr(map["data" := UserResource.ToArray(u)]), HTTP_OK, map[]))
    ensures ApiSuccess.ToResponse(Show(u).ok, true) == Some(JsonResponse(UserResource.ToArray(u), HTTP_OK, map[]))
  {
  }

  /**
   * `destroy` as a function of the store: `failure` is the exception
   * `$user->delete()` raises, if any (a database error).
   */
  function DestroySpec(s: State, u: User, failure: Option<Throwable>): (r: (State, Response))
    ensures r.1.ErrorEnvelope? <==> failure.Some?
    ensures failure.Some? ==>
      && r.0 == s
      && r.1.err.e == failure.value && r.1.err.message == GENERIC_MESSAGE
      && r.1.err.code == HTTP_INTERNAL_SERVER_ERROR
    ensures failure.None? ==>
      && (forall e :: e in r.0.users <==> e in s.users && s.users[e].id != u.id)
      && r.1.SuccessEnvelope? && r.1.ok.code == HTTP_NO_CONTENT && !Truthy(r.1.ok.data)
  {
    match failure
    case Some(th) => (s, ErrorEnvelope(ApiErrorResponse(th, GENERIC_MESSAGE)))
    case None => (DeleteUser(s, u.id), SuccessEnvelope(ApiSuccessResponse(code := HTTP_NO_CONTENT)))
  }

  /** `destroy`: delete the bound user and map the outcome to a response. */
  method Destroy(db: Database, u: User, failure: Option<Throwable>) returns (r: Response)
    requires db.Valid()
    modifies db
    ensures (db.Snapshot(), r) == DestroySpec(old(db.Snapshot()), u, failure)
    ensures db.Valid()
  {
    if failure.Some? {
      r := ErrorEnvelope(ApiErrorResponse(failure.value, GENERIC_MESSAGE));
      return;
    }
    db.Delete(u.id);
    r := SuccessEnvelope(ApiSuccessResponse(code := HTTP_NO_CONTENT));
  }

  /**
   * A successful delete removes exactly the bound user, keeps every other
   * user and every social account of another user as it was, and answers 204 with an empty body (no `data` key),
   * whatever the wrap setting.
   */
  lemma DestroySucceeds(s: State, u: User, wrapIsNull: bool)
    requires Consistent(s) && u.email in s.users && s.users[u.email] == u
    ensures var (s', r) := DestroySpec(s, u, None);
      && s'.users == s.users - {u.email}
      && (forall e | e in s'.users :: s'.users[e] == s.users[e])
      && (forall a | a in s.accounts :: a in s'.accounts <==> a.userId != u.id)
      && (forall k :: Count(s'.accounts, k) == if k.userId == u.id then 0 else Count(s.accounts, k))
      && Consistent(s')
      && r.SuccessEnvelope?
      && ApiSuccess.ToResponse(r.ok, wrapIsNull) == Some(JsonResponse(Arr(map[]), HTTP_NO_CONTENT, map[]))
  {
    DeleteRemovesExactlyThatUser(s, u);
    DeletePreservesConsistency(s, u.id);
    forall k ensures Count(WithoutOwner(s.accounts, u.id), k) == if k.userId == u.id then 0 else Count(s.accounts, k) {
      WithoutOwnerCount(s.accounts, u.id, k);
    }
  }

  /** A failed delete changes nothing and, with debug off, answers 500 with the generic message only. */
  lemma DestroyFails(s: State, u: User, th: Throwable)
    ensures var (s', r) := DestroySpec(s, u, Some(th));
      && s' == s
      && r.ErrorEnvelope?
      && ApiError.ToResponse(r.err, false) ==
           JsonResponse(Arr(map["error" := Arr(map["message" := Str(GENERIC_MESSAGE)])]),
                        HTTP_INTERNAL_SERVER_ERROR, map[])
  {
  }
}
