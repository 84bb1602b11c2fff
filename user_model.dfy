/** The User schema: a unique, trimmed, lower-cased email, a password, a role and a store. */
module UserModel {
  import opened Wrappers
  import opened Ids
  import opened Text

  datatype Role = Admin | Regular

  /** The text of a role, as the `type` field stores it. */
  function RoleName(r: Role): string {
    match r
    case Admin => "admin"
    case Regular => "user"
  }

  /** Casting the `type` field: the default `'user'` when absent, otherwise the enum check. */
  function CastRole(t: Option<string>): (r: Option<Role>)
    ensures t.None? ==> r == Some(Regular)
    ensures t.Some? ==> (r.Some? <==> t.value == "admin" || t.value == "user")
    ensures t.Some? && r.Some? ==> RoleName(r.value) == t.value
  {
    match t
    case None => Some(Regular)
    case Some(s) => if s == "admin" then Some(Admin) else if s == "user" then Some(Regular) else None
  }

  datatype UserDoc = UserDoc(
    email: string, pwd: string, role: Role, storeId: Option<Id>, createdAt: int, updatedAt: int)

  /** The `trim` and `lowercase` setters of the email field. */
  function NormalizeEmail(e: string): (r: string)
    ensures |r| <= |e| && ToLower(r) == r
    ensures r == "" <==> IsBlank(e)
  {
    ToLowerIdempotent(Trim(e));
    ToLower(Trim(e))
  }

  lemma NormalizeEmailIdempotent(e: string)
    ensures NormalizeEmail(NormalizeEmail(e)) == NormalizeEmail(e)
  {
    TrimLowerCommute(Trim(e));
    TrimIdempotent(e);
    ToLowerIdempotent(Trim(e));
  }

  /** What the schema's validators check (the role is already an enum value here). */
  predicate Validates(u: UserDoc) {
    u.email != "" && u.pwd != ""
  }

  /** A stored user: valid, its email in the setters' normal form. */
  predicate Valid(u: UserDoc) {
    Validates(u) && u.email == NormalizeEmail(u.email)
  }

  /** `new User({...}).save()` up to the unique index: setters, then validation. */
  function Build(email: string, pwd: string, userType: Option<string>, storeId: Option<Id>, now: int)
    : (r: Option<UserDoc>)
    ensures r.Some? <==> NormalizeEmail(email) != "" && pwd != "" && CastRole(userType).Some?
    ensures r.Some? ==> Valid(r.value)
    ensures r.Some? ==> r.value == UserDoc(NormalizeEmail(email), pwd, CastRole(userType).value, storeId, now, now)
  {
    NormalizeEmailIdempotent(email);
    var role := CastRole(userType);
    if NormalizeEmail(email) != "" && pwd != "" && role.Some? then
      Some(UserDoc(NormalizeEmail(email), pwd, role.value, storeId, now, now))
    else None
  }

  /** A user as the API shows it: the id, email, role and store, without the password
      (the listed documents also carry their timestamps, which are not modelled here). */
  datatype Profile = Profile(id: Id, email: string, role: Role, storeId: Option<Id>)

  function ProfileOf(id: Id, u: UserDoc): (p: Profile)
    ensures p.id == id && p.email == u.email && p.role == u.role && p.storeId == u.storeId
  {
    Profile(id, u.email, u.role, u.storeId)
  }
}
