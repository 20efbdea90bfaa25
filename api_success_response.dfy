/** `App\Response\ApiSuccessResponse`: the success envelope. */
module ApiSuccess {
  import opened Wrappers
  import opened Php

  const HTTP_OK := 200
  const HTTP_NO_CONTENT := 204

  /** The constructor fields with their defaults; they are never reassigned. */
  datatype ApiSuccessResponse = ApiSuccessResponse(
    data: Value := Arr(map[]),
    metadata: map<string, Value> := map[],
    code: int := HTTP_OK,
    headers: map<string, string> := map[])

  /**
   * `toResponse`. `wrapIsNull` stands for `is_null(JsonResource::$wrap)`.
   * `None` is the PHP Error raised when, with a null wrap, metadata is put
   * into a data value that is a non-array scalar.
   */
  function ToResponse(r: ApiSuccessResponse, wrapIsNull: bool): (out: Option<JsonResponse>)
    // status and headers are passed through unchanged
    ensures out.Some? ==> out.value.status == r.code && out.value.headers == r.headers
    // the only failure: a scalar data value that metadata is added to
    ensures out.None? <==> wrapIsNull && Truthy(r.data) && r.metadata != map[] && !r.data.Arr?
    // falsy data contributes nothing: the body is {} or {metadata}
    ensures !Truthy(r.data) ==>
      out == Some(JsonResponse(
        Arr(if r.metadata == map[] then map[] else map["metadata" := Arr(r.metadata)]),
        r.code, r.headers))
    // with a wrap, the body has a `data` key exactly for truthy data and a
    // `metadata` key exactly for non-empty metadata, holding them unchanged
    ensures !wrapIsNull ==>
      && out.Some? && out.value.body.Arr?
      && out.value.body.entries.Keys ==
           (if Truthy(r.data) then {"data"} else {}) + (if r.metadata != map[] then {"metadata"} else {})
      && (Truthy(r.data) ==> out.value.body.entries["data"] == r.data)
      && (r.metadata != map[] ==> out.value.body.entries["metadata"] == Arr(r.metadata))
    // without a wrap, truthy data is the body itself, not nested ...
    ensures wrapIsNull && Truthy(r.data) && r.metadata == map[] ==> out.Some? && out.value.body == r.data
    // ... and metadata is merged into it as one more key
    ensures wrapIsNull && Truthy(r.data) && r.metadata != map[] && r.data.Arr? ==>
      out.Some? && out.value.body == Arr(r.data.entries["metadata" := Arr(r.metadata)])
  {
    var response :=
      if Truthy(r.data) then
        if wrapIsNull then r.data else Arr(map["data" := r.data])
      else Arr(map[]);
    var body :=
      if r.metadata != map[] then AssignKey(response, "metadata", Arr(r.metadata))
      else Some(response);
    match body
    case None => None
    case Some(b) => Some(JsonResponse(b, r.code, r.headers))
  }
}
