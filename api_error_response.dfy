/** `App\Response\ApiErrorResponse`: the error envelope. */
module ApiError {
  import opened Php

  const HTTP_INTERNAL_SERVER_ERROR := 500

  /** The message the controllers hand to the envelope, spelling included. */
  const GENERIC_MESSAGE := "An error occured while processing request. Please try again."

  datatype ApiErrorResponse = ApiErrorResponse(
    e: Throwable,
    message: string,
    code: int := HTTP_INTERNAL_SERVER_ERROR,
    headers: map<string, string> := map[])

  /** The inner `error` object: only the given message unless `app.debug` is on. */
  function ErrorDetail(r: ApiErrorResponse, debug: bool): map<string, Value> {
    if debug then
      map["message" := Str(r.e.message), "file" := Str(r.e.file), "line" := Int(r.e.line)]
    else
      map["message" := Str(r.message)]
  }

  /** `toResponse`; `debug` stands for `config('app.debug')`. */
  function ToResponse(r: ApiErrorResponse, debug: bool): (out: JsonResponse)
    ensures out.status == r.code && out.headers == r.headers
    // the body is always `{error: {...}}`
    ensures out.body.Arr? && out.body.entries.Keys == {"error"}
    ensures out.body.entries["error"].Arr?
    ensures var inner := out.body.entries["error"].entries;
      && (!debug ==> inner.Keys == {"message"} && inner["message"] == Str(r.message))
      && (debug ==> inner.Keys == {"message", "file", "line"}
                    && inner["message"] == Str(r.e.message)
                    && inner["file"] == Str(r.e.file)
                    && inner["line"] == Int(r.e.line))
  {
    JsonResponse(Arr(map["error" := Arr(ErrorDetail(r, debug))]), r.code, r.headers)
  }

  /** With debug off the rendered response says nothing about the exception. */
  lemma MaskedResponseIgnoresException(r: ApiErrorResponse, other: Throwable)
    ensures ToResponse(r, false) == ToResponse(r.(e := other), false)
  {
  }

  /** With debug on the constructor's message is discarded. */
  lemma DebugResponseIgnoresMessage(r: ApiErrorResponse, other: string)
    ensures ToResponse(r, true) == ToResponse(r.(message := other), true)
  {
  }
}
