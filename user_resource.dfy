/** `App\Http\Resources\api\UserResource`. */
module UserResource {
  import opened Php
  import opened Models

  /** `toArray`: the public projection of a user. */
  function ToArray(u: User): (r: Value)
    ensures r.Arr? && r.entries.Keys == {"id", "name", "email"}
    ensures r.entries["id"] == Int(u.id) && r.entries["name"] == Str(u.name) && r.entries["email"] == Str(u.email)
    ensures Truthy(r)
  {
    Arr(map["id" := Int(u.id), "name" := Str(u.name), "email" := Str(u.email)])
  }

  /**
   * Two users project alike exactly when their id, name and email agree: the
   * password and `login_as` never show.
   */
  lemma ProjectionHidesSecrets(u: User, v: User)
    ensures ToArray(u) == ToArray(v) <==> u.id == v.id && u.name == v.name && u.email == v.email
  {
  }
}
