/** The request attributes the core reads and the kinds of response it returns. */
module Http {
  import opened Wrappers
  import opened Php
  import opened ApiSuccess
  import opened ApiError

  /**
   * `$request->provider ?? null`, `isJson()`, `expectsJson()` and
   * `$request->device_name ?? ...`.
   */
  datatype Request = Request(
    provider: Option<string>,
    isJson: bool,
    expectsJson: bool,
    deviceName: Option<string>)

  /** The controller's test `isJson() || expectsJson()`; the guard uses `expectsJson()` alone. */
  predicate WantsJson(r: Request) {
    r.isJson || r.expectsJson
  }

  /** Where a redirect response points. */
  datatype Target =
    | ProviderAuthorization(provider: string)  // Socialite's redirect to the provider
    | Back                                     // `redirect()->back()`
    | To(url: string)                          // `redirect($url)`

  datatype Response =
    | SuccessEnvelope(ok: ApiSuccessResponse)  // a Responsable success envelope
    | ErrorEnvelope(err: ApiErrorResponse)     // a Responsable error envelope
    | Json(json: JsonResponse)                 // `response()->json(...)`
    | RedirectTo(target: Target)
    | Unhandled(th: Throwable)                 // an exception left to the framework
    | NoBody                                   // an action that returns null
}
