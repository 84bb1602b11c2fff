/**
 * The `/api/auth` routes: the login decision (the fixed admin account, or a user found by
 * lower-cased email and exact password) and `/me`, which resolves a token to a profile.
 */
module AuthRoutes {
  import opened Wrappers
  import opened Ids
  import opened Text
  import opened UserModel
  import opened Database
  import opened Middleware

  const ADMIN_USERNAME: string := "admin"
  const ADMIN_PASSWORD: string := "QuiX3nt!"

  /** The claims of the admin token. */
  const ADMIN_PAYLOAD: Payload := Payload("admin", None, Some("admin"), Admin, None)

  /** The profile `/me` returns for the admin token. */
  const ADMIN_PROFILE: Profile := Profile("admin", "admin@gmail.com", Admin, None)

  /** The login body; `None` is an absent field. */
  datatype Credentials = Credentials(email: Option<string>, pwd: Option<string>, username: Option<string>)

  /** The status, and on success the token and the claims it was signed with. */
  datatype LoginReply = LoginReply(status: int, token: Option<string>, user: Option<Payload>)

  /** `User.findOne({ email: email.toLowerCase(), pwd })` matches the user `k`. */
  predicate Matches(users: map<Id, UserDoc>, k: Id, email: string, pwd: string) {
    k in users && users[k].email == ToLower(email) && users[k].pwd == pwd
  }

  predicate IsAdminLogin(c: Credentials) {
    c.username == Some(ADMIN_USERNAME) && c.pwd == Some(ADMIN_PASSWORD)
  }

  /** The claims of a user's token: id, email, type and store. */
  function UserPayload(k: Id, u: UserDoc): (p: Payload)
    ensures p.userId == k && p.email == Some(u.email) && p.role == u.role && p.storeId == u.storeId
    ensures p.username.None?
  {
    Payload(k, Some(u.email), None, u.role, u.storeId)
  }

  /** POST /login */
  ghost function Login(db: Db, c: Credentials, sign: Signer): (r: LoginReply)
    ensures r.status in {200, 400, 401, 500}
    ensures r.status == 400 <==> (!Truthy(c.email) && !Truthy(c.username)) || !Truthy(c.pwd)
    ensures r.status != 400 && IsAdminLogin(c) ==> r == LoginReply(200, Some(sign(ADMIN_PAYLOAD)), Some(ADMIN_PAYLOAD))
    ensures r.status == 500 <==> r.status != 400 && !IsAdminLogin(c) && c.email.None?
    ensures r.status == 200 && !IsAdminLogin(c) ==>
      exists k :: Matches(db.users, k, c.email.value, c.pwd.value) && r.user == Some(UserPayload(k, db.users[k]))
    ensures r.status == 401 <==> r.status != 400 && !IsAdminLogin(c) && c.email.Some?
                                 && !exists k :: Matches(db.users, k, c.email.value, c.pwd.value)
    ensures r.status == 200 ==> r.user.Some? && r.token == Some(sign(r.user.value))
    ensures r.status != 200 ==> r.token.None? && r.user.None?
  {
    if (!Truthy(c.email) && !Truthy(c.username)) || !Truthy(c.pwd) then LoginReply(400, None, None)
    else if IsAdminLogin(c) then LoginReply(200, Some(sign(ADMIN_PAYLOAD)), Some(ADMIN_PAYLOAD))
    else if c.email.None? then LoginReply(500, None, None)   // `email.toLowerCase()` on undefined
    else if !exists k :: Matches(db.users, k, c.email.value, c.pwd.value) then LoginReply(401, None, None)
    else
      var k :| Matches(db.users, k, c.email.value, c.pwd.value);
      var p := UserPayload(k, db.users[k]);
      LoginReply(200, Some(sign(p)), Some(p))
  }

  /** A username that is not the admin account's, or the admin username with a wrong
      password, and no email: `email.toLowerCase()` throws, and the answer is 500 where
      wrong credentials should be refused with 401. */
  lemma UsernameWithoutEmailIsServerError(db: Db, c: Credentials, sign: Signer)
    requires Truthy(c.username) && Truthy(c.pwd) && c.email.None? && !IsAdminLogin(c)
    ensures Login(db, c, sign) == LoginReply(500, None, None)
  {
  }

  /** POST /login with the user lookup skipped when no email is given, so that credentials
      that are neither the admin account nor a user's are refused with 401. */
  ghost function LoginCorrected(db: Db, c: Credentials, sign: Signer): (r: LoginReply)
    ensures r.status in {200, 400, 401}
    ensures r.status == 200 <==> !((!Truthy(c.email) && !Truthy(c.username)) || !Truthy(c.pwd))
                                 && (IsAdminLogin(c)
                                     || (c.email.Some? && exists k :: Matches(db.users, k, c.email.value, c.pwd.value)))
  {
    if (!Truthy(c.email) && !Truthy(c.username)) || !Truthy(c.pwd) then LoginReply(400, None, None)
    else if IsAdminLogin(c) then LoginReply(200, Some(sign(ADMIN_PAYLOAD)), Some(ADMIN_PAYLOAD))
    else if c.email.None? then LoginReply(401, None, None)
    else Login(db, c, sign)
  }

  /** The corrected login answers as the written one, except that the 500 for a missing
      email becomes 401; it never answers 500. */
  lemma LoginCorrectedRefusesWith401(db: Db, c: Credentials, sign: Signer)
    ensures var w := Login(db, c, sign);
            var r := LoginCorrected(db, c, sign);
            && (w.status != 500 ==> r == w)
            && (w.status == 500 ==> r == LoginReply(401, None, None))
  {
  }

  /** The status and, on success, the profile `/me` returns. */
  datatype MeReply = MeReply(status: int, profile: Option<Profile>)

  /** GET /me: 401 without a token, for a token `verify` refuses or for an unknown user;
      the fixed admin profile for the admin token; otherwise the user without the password. */
  function Me(db: Db, authorization: Option<string>, verify: Verifier): (r: MeReply)
    ensures r.status == 200 <==> Authenticate(authorization, verify).Authenticated?
                                 && (Authenticate(authorization, verify).user.userId == "admin"
                                     || Authenticate(authorization, verify).user.userId in db.users)
    ensures r.status != 200 ==> r == MeReply(401, None)
    ensures r.status == 200 ==>
      var id := Authenticate(authorization, verify).user.userId;
      r.profile == Some(if id == "admin" then ADMIN_PROFILE else ProfileOf(id, db.users[id]))
  {
    var token := ExtractToken(authorization);
    if !Truthy(token) then MeReply(401, None)
    else match verify(token.value)
      case None => MeReply(401, None)
      case Some(decoded) =>
        if decoded.userId == "admin" then MeReply(200, Some(ADMIN_PROFILE))
        else if decoded.userId !in db.users then MeReply(401, None)
        else MeReply(200, Some(ProfileOf(decoded.userId, db.users[decoded.userId])))
  }

  /** The admin login never depends on the user table. */
  lemma AdminLoginIgnoresUsers(db1: Db, db2: Db, c: Credentials, sign: Signer)
    requires IsAdminLogin(c)
    ensures Login(db1, c, sign) == Login(db2, c, sign)
    ensures Login(db1, c, sign).user == Some(ADMIN_PAYLOAD)
  {
  }

  /** With unique emails, a user's own email (in any case) and password log in as that user. */
  lemma LoginFindsUser(db: Db, c: Credentials, sign: Signer, k: Id)
    requires EmailsUnique(db) && !IsAdminLogin(c)
    requires Truthy(c.email) && Truthy(c.pwd) && Matches(db.users, k, c.email.value, c.pwd.value)
    ensures Login(db, c, sign) == LoginReply(200, Some(sign(UserPayload(k, db.users[k]))), Some(UserPayload(k, db.users[k])))
  {
    var r := Login(db, c, sign);
    assert r.status != 400 && r.status != 401 && r.status != 500;
    var j :| Matches(db.users, j, c.email.value, c.pwd.value) && r.user == Some(UserPayload(j, db.users[j]));
    assert j == k;
  }

  /** The token of a successful login, sent back to `/me`, yields the profile of the user
      that logged in (for the admin, the fixed admin profile). */
  lemma LoginThenMe(db: Db, c: Credentials, sign: Signer, verify: Verifier)
    requires Login(db, c, sign).status == 200
    requires forall p: Payload :: sign(p) != "" && verify(sign(p)) == Some(p)
    requires "admin" !in db.users
    ensures var r := Login(db, c, sign);
            var me := Me(db, Some("Bearer " + r.token.value), verify);
            me.status == 200
            && me.profile == Some(if r.user.value.userId == "admin" then ADMIN_PROFILE
                                  else ProfileOf(r.user.value.userId, db.users[r.user.value.userId]))
  {
    var r := Login(db, c, sign);
    var p := r.user.value;
    SignedTokenAuthenticates(sign, verify, p);
    if !IsAdminLogin(c) {
      var k :| Matches(db.users, k, c.email.value, c.pwd.value) && p == UserPayload(k, db.users[k]);
      assert p.userId in db.users;
    }
  }

  /** `/me` without an Authorization header is 401. */
  lemma MeWithoutHeader(db: Db, verify: Verifier)
    ensures Me(db, None, verify) == MeReply(401, None)
  {
  }
}
