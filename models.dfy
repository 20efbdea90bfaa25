/**
 * The Eloquent models the login pipeline writes: `User` (only the columns
 * the core reads or writes) and `SocialAccount`, with the provider
 * allow-list `SocialAccount::PROVIDERS`.
 */
module Models {
  import opened Wrappers

  /**
   * A `users` row. `password` is the hash stored at creation (for social
   * logins an unguessable filler); `loginAs` is the `login_as` column.
   */
  datatype User = User(id: nat, name: string, email: string, password: string, loginAs: Option<string>)

  /** A `social_accounts` row. */
  datatype SocialAccount = SocialAccount(provider: string, providerId: string, userId: nat, avatar: string)

  /** The columns `updateOrCreate` matches on. */
  datatype AccountKey = AccountKey(provider: string, providerId: string, userId: nat)

  function KeyOf(a: SocialAccount): AccountKey {
    AccountKey(a.provider, a.providerId, a.userId)
  }

  /** `SocialAccount::PROVIDERS`. */
  const PROVIDERS: seq<string> := ["facebook", "google", "linkedin", "github"]

  /**
   * PHP's loose `==` between a nullable route value and a string of the list.
   * null equals only the empty string. Two strings compare as numbers only
   * when both are numeric strings; no entry of PROVIDERS is, so for them
   * loose equality is plain, case-sensitive string equality.
   */
  predicate LooseEquals(needle: Option<string>, item: string)
    ensures needle.None? ==> (LooseEquals(needle, item) <==> item == "")
    ensures item != "" ==> (LooseEquals(needle, item) <==> needle == Some(item))
  {
    match needle
    case None => item == ""
    case Some(s) => s == item
  }

  /** `in_array($needle, $haystack)` (non-strict), scanning left to right. */
  function InArray(needle: Option<string>, haystack: seq<string>): (found: bool)
    ensures found <==> exists i | 0 <= i < |haystack| :: LooseEquals(needle, haystack[i])
  {
    if haystack == [] then false
    else LooseEquals(needle, haystack[0]) || InArray(needle, haystack[1..])
  }

  /** The allow-list is four distinct names. */
  lemma ProvidersDistinct()
    ensures |PROVIDERS| == 4
    ensures forall i, j | 0 <= i < j < |PROVIDERS| :: PROVIDERS[i] != PROVIDERS[j]
  {
  }

  /** Membership in the allow-list is exact equality with one of the four names; null is never a member. */
  lemma AllowListMembership(p: Option<string>)
    ensures InArray(p, PROVIDERS) <==> p.Some? && p.value in {"facebook", "google", "linkedin", "github"}
  {
  }
}
