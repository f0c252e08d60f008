/**
 * `mapSupabaseUser`: the application's own user record built from the auth
 * library's user, with `??` defaults for the name and the email.
 */
module MapUser {
  import opened Wrappers

  /** The part of `user_metadata` that is read; an absent or null `full_name` is `None`. */
  datatype UserMetadata = UserMetadata(fullName: Option<string>)

  /** The auth library's user, reduced to the fields read; an absent or null field is `None`. */
  datatype SupabaseUser = SupabaseUser(id: string, email: Option<string>, userMetadata: Option<UserMetadata>)

  /** The application's user record. */
  datatype User = User(id: string, fullName: string, email: string)

  /** JavaScript's `??`: the value unless it is null or undefined. */
  function Nullish(o: Option<string>, fallback: string): string {
    if o.Some? then o.value else fallback
  }

  /** The full name the optional chain `user_metadata?.full_name` reaches, if any. */
  function MetadataName(user: SupabaseUser): Option<string> {
    if user.userMetadata.Some? then user.userMetadata.value.fullName else None
  }

  /** `mapSupabaseUser`; a `null` user is `None` (a user object is always truthy). */
  function MapSupabaseUser(user: Option<SupabaseUser>): (r: Option<User>)
    ensures r.None? <==> user.None?
    ensures user.Some? ==> r.value.id == user.value.id
    ensures user.Some? && MetadataName(user.value).Some? ==> r.value.fullName == MetadataName(user.value).value
    ensures user.Some? && MetadataName(user.value).None? ==> r.value.fullName == ""
    ensures user.Some? && user.value.email.Some? ==> r.value.email == user.value.email.value
    ensures user.Some? && user.value.email.None? ==> r.value.email == ""
  {
    if user.None? then None
    else
      var u := user.value;
      Some(User(u.id, Nullish(MetadataName(u), ""), Nullish(u.email, "")))
  }

  /** An auth user carrying exactly the fields of `u`. */
  function FromUser(u: User): SupabaseUser {
    SupabaseUser(u.id, Some(u.email), Some(UserMetadata(Some(u.fullName))))
  }

  /**
   * Mapping loses nothing an application user holds: the empty name and the
   * empty email included, every record comes back from an auth user carrying it.
   */
  lemma MapFromUser(u: User)
    ensures MapSupabaseUser(Some(FromUser(u))) == Some(u)
  {
  }

  /**
   * Two auth users map to the same record exactly when they agree on the id
   * and on the defaulted name and email: a missing field and an empty one
   * are not told apart.
   */
  lemma MapSameIff(a: SupabaseUser, b: SupabaseUser)
    ensures MapSupabaseUser(Some(a)) == MapSupabaseUser(Some(b)) <==>
      a.id == b.id
      && Nullish(MetadataName(a), "") == Nullish(MetadataName(b), "")
      && Nullish(a.email, "") == Nullish(b.email, "")
  {
  }
}
