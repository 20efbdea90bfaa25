/** `App\Http\Middleware\SocialMediaOAuthMiddleware`: the provider allow-list gate. */
module ProviderGuard {
  import opened Wrappers
  import opened Php
  import opened Models
  import opened Http

  const HTTP_FORBIDDEN := 403
  const INVALID_PROVIDER := "Invalid service provider"

  /** Either `$next($request)` runs on the unchanged request, or a terminal response. */
  datatype GuardOutcome = PassThrough(request: Request) | Rejected(response: Response)

  /** `handle`: pure, so a rejection has no side effect and never reaches `$next`. */
  function Handle(req: Request): (out: GuardOutcome)
    ensures out.PassThrough? <==>
      req.provider.Some? && req.provider.value in {"facebook", "google", "linkedin", "github"}
    ensures out.PassThrough? ==> out.request == req && req.provider.value in PROVIDERS
    ensures out.Rejected? && req.expectsJson ==>
      out.response == Json(JsonResponse(Arr(map["error" := Str(INVALID_PROVIDER)]), HTTP_FORBIDDEN, map[]))
    ensures out.Rejected? && !req.expectsJson ==> out.response == RedirectTo(Back)
  {
    AllowListMembership(req.provider);
    if !InArray(req.provider, PROVIDERS) then
      if req.expectsJson then
        Rejected(Json(JsonResponse(Arr(map["error" := Str(INVALID_PROVIDER)]), HTTP_FORBIDDEN, map[])))
      else
        Rejected(RedirectTo(Back))
    else
      PassThrough(req)
  }

  /**
   * The guard negotiates on `expectsJson()` only: a rejected request whose
   * body is JSON but which does not ask for JSON is sent back, not given a 403.
   */
  lemma RejectionIgnoresIsJson(req: Request)
    requires Handle(req).Rejected?
    ensures Handle(req.(isJson := !req.isJson)) == Handle(req)
  {
  }
}
