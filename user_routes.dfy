/**
 * The `/api/users` routes, all behind `auth` and `isAdmin`: listing without passwords,
 * creation with an email-uniqueness check, the truthy-fallback update and delete.
 */
module UserRoutes {
  import opened Wrappers
  import opened Ids
  import opened Text
  import opened UserModel
  import opened Database
  import opened Middleware

  /** A request body; `None` is an absent field. */
  datatype UserBody = UserBody(email: Option<string>, pwd: Option<string>, userType: Option<string>, storeId: Option<Id>)

  /** GET /: every user, with the password left out. */
  function ListUsers(db: Db, authorization: Option<string>, verify: Verifier): (l: Listing<Profile>)
    ensures l.status == 200 <==> AdminPasses(authorization, verify)
    ensures l.status != 200 ==> l.status == AdminGate(authorization, verify).status && l.items == map[]
    ensures l.status == 200 ==> l.items.Keys == db.users.Keys
    ensures forall k :: k in l.items ==> k in db.users && l.items[k] == ProfileOf(k, db.users[k])
  {
    var gate := AdminGate(authorization, verify);
    if gate.Respond? then Listing(gate.status, map[])
    else Listing(200, map k | k in db.users :: ProfileOf(k, db.users[k]))
  }

  /** `!email || !pwd || !type || !storeId` */
  predicate FieldsMissing(body: UserBody)
    ensures !FieldsMissing(body) ==>
      body.email.Some? && body.email.value != "" && body.pwd.Some? && body.pwd.value != "" && body.userType.Some? && body.userType.value != "" && body.storeId.Some? && body.storeId.value != ""
  {
    !Truthy(body.email) || !Truthy(body.pwd) || !Truthy(body.userType) || !Truthy(body.storeId)
  }

  /** POST /: 400 for a missing field or when a user already has the lower-cased email;
      then the save, which fails (500) on a validation error or on the unique index, since
      the stored email is also trimmed. */
  function CreateUser(db: Db, authorization: Option<string>, verify: Verifier,
                      body: UserBody, now: int, newId: Id): (r: Reply)
    ensures !AdminPasses(authorization, verify) ==> r == Reply(AdminGate(authorization, verify).status, db)
    ensures AdminPasses(authorization, verify) && FieldsMissing(body) ==> r == Reply(400, db)
    ensures AdminPasses(authorization, verify) && !FieldsMissing(body) && EmailTaken(db.users, ToLower(body.email.value))
            ==> r == Reply(400, db)
    ensures r.status == 201 <==>
      && AdminPasses(authorization, verify) && !FieldsMissing(body)
      && !EmailTaken(db.users, ToLower(body.email.value))
      && Build(body.email.value, body.pwd.value, body.userType, body.storeId, now).Some?
      && !EmailTaken(db.users, NormalizeEmail(body.email.value)) && newId !in db.users
    ensures r.status == 201 ==>
      r.db == db.(users := db.users[newId := Build(body.email.value, body.pwd.value, body.userType, body.storeId, now).value])
    ensures r.status != 201 ==> r.db == db
  {
    var gate := AdminGate(authorization, verify);
    if gate.Respond? then Reply(gate.status, db)
    else if FieldsMissing(body) then Reply(400, db)
    else if EmailTaken(db.users, ToLower(body.email.value)) then Reply(400, db)
    else
      var user := Build(body.email.value, body.pwd.value, body.userType, body.storeId, now);
      if user.None? then Reply(500, db)                                  // ValidationError
      else if EmailTaken(db.users, user.value.email) then Reply(500, db)  // unique index
      else if newId in db.users then Reply(500, db)
      else Reply(201, db.(users := db.users[newId := user.value]))
  }

  /** The user after `field = body.field || user.field` for each field, the email through
      its setters; `None` when the type is not one of the enum's values. */
  function MergeUser(u: UserDoc, body: UserBody): (m: Option<UserDoc>)
    ensures m.Some? <==> !Truthy(body.userType) || CastRole(body.userType).Some?
    ensures m.Some? ==>
      && m.value.email == (if Truthy(body.email) then NormalizeEmail(body.email.value) else u.email)
      && m.value.pwd == (if Truthy(body.pwd) then body.pwd.value else u.pwd)
      && m.value.role == (if Truthy(body.userType) then CastRole(body.userType).value else u.role)
      && m.value.storeId == (if Truthy(body.storeId) then body.storeId else u.storeId)
      && m.value.createdAt == u.createdAt && m.value.updatedAt == u.updatedAt
  {
    var role := if Truthy(body.userType) then CastRole(body.userType) else Some(u.role);
    if role.None? then None
    else Some(UserDoc(
      if Truthy(body.email) then NormalizeEmail(body.email.value) else u.email,
      if Truthy(body.pwd) then body.pwd.value else u.pwd,
      role.value,
      if Truthy(body.storeId) then body.storeId else u.storeId,
      u.createdAt, u.updatedAt))
  }

  /** What `save` writes for an existing user: the update time moves only when a field changed. */
  function Touched(old_: UserDoc, m: UserDoc, now: int): (t: UserDoc)
    ensures t.email == m.email && t.pwd == m.pwd && t.role == m.role && t.storeId == m.storeId && t.createdAt == m.createdAt
    ensures t.updatedAt == if m == old_ then old_.updatedAt else now
  {
    if m == old_ then m else m.(updatedAt := now)
  }

  /** PUT /:id: 404 for an unknown id; otherwise each field is replaced by the body's when
      that is truthy, and the save fails (500) on a validation error or a clash with
      another user's email. */
  function UpdateUser(db: Db, authorization: Option<string>, verify: Verifier,
                      id: Id, body: UserBody, now: int): (r: Reply)
    ensures !AdminPasses(authorization, verify) ==> r == Reply(AdminGate(authorization, verify).status, db)
    ensures AdminPasses(authorization, verify) && id !in db.users ==> r == Reply(404, db)
    ensures r.status == 200 <==>
      && AdminPasses(authorization, verify) && id in db.users && MergeUser(db.users[id], body).Some?
      && Validates(MergeUser(db.users[id], body).value)
      && !EmailTakenByOther(db.users, MergeUser(db.users[id], body).value.email, id)
    ensures r.status == 200 ==>
      r.db == db.(users := db.users[id := Touched(db.users[id], MergeUser(db.users[id], body).value, now)])
    ensures r.status != 200 ==> r.db == db && r.status in {401, 403, 404, 500}
  {
    var gate := AdminGate(authorization, verify);
    if gate.Respond? then Reply(gate.status, db)
    else if id !in db.users then Reply(404, db)
    else
      var merged := MergeUser(db.users[id], body);
      if merged.None? then Reply(500, db)
      else if !Validates(merged.value) then Reply(500, db)
      else if EmailTakenByOther(db.users, merged.value.email, id) then Reply(500, db)
      else Reply(200, db.(users := db.users[id := Touched(db.users[id], merged.value, now)]))
  }

  /** DELETE /:id: exactly that user is removed, or 404. */
  function DeleteUser(db: Db, authorization: Option<string>, verify: Verifier, id: Id): (r: Reply)
    ensures !AdminPasses(authorization, verify) ==> r == Reply(AdminGate(authorization, verify).status, db)
    ensures r.status == 200 <==> AdminPasses(authorization, verify) && id in db.users
    ensures r.status == 200 ==> r.db == db.(users := db.users - {id})
    ensures r.status != 200 ==> r.db == db && r.status in {401, 403, 404}
  {
    var gate := AdminGate(authorization, verify);
    if gate.Respond? then Reply(gate.status, db)
    else if id !in db.users then Reply(404, db)
    else Reply(200, db.(users := db.users - {id}))
  }

  // The handlers

  method HandleListUsers(db: Database, authorization: Option<string>, verify: Verifier)
    returns (l: Listing<Profile>)
    ensures l == ListUsers(db.Snapshot(), authorization, verify)
  {
    var step := RunAdminChain(authorization, verify);
    if step.Respond? {
      return Listing(step.status, map[]);
    }
    l := Listing(200, map k | k in db.users :: ProfileOf(k, db.users[k]));
  }

  method HandleCreateUser(db: Database, authorization: Option<string>, verify: Verifier,
                          body: UserBody, now: int, newId: Id) returns (status: int)
    modifies db
    ensures var r := CreateUser(old(db.Snapshot()), authorization, verify, body, now, newId);
            status == r.status && db.Snapshot() == r.db
  {
    var step := RunAdminChain(authorization, verify);
    if step.Respond? {
      return step.status;
    }
    if FieldsMissing(body) {
      return 400;
    }
    if EmailTaken(db.users, ToLower(body.email.value)) {
      return 400;
    }
    var user := Build(body.email.value, body.pwd.value, body.userType, body.storeId, now);
    if user.None? || EmailTaken(db.users, user.value.email) || newId in db.users {
      return 500;
    }
    db.users := db.users[newId := user.value];
    return 201;
  }

  method HandleUpdateUser(db: Database, authorization: Option<string>, verify: Verifier,
                          id: Id, body: UserBody, now: int) returns (status: int)
    modifies db
    ensures var r := UpdateUser(old(db.Snapshot()), authorization, verify, id, body, now);
            status == r.status && db.Snapshot() == r.db
  {
    var step := RunAdminChain(authorization, verify);
    if step.Respond? {
      return step.status;
    }
    if id !in db.users {
      return 404;
    }
    var stored := db.users[id];
    var user := stored;
    if Truthy(body.email) {
      user := user.(email := NormalizeEmail(body.email.value));
    }
    if Truthy(body.pwd) {
      user := user.(pwd := body.pwd.value);
    }
    if Truthy(body.userType) {
      var role := CastRole(body.userType);
      if role.None? {
        return 500;
      }
      user := user.(role := role.value);
    }
    if Truthy(body.storeId) {
      user := user.(storeId := body.storeId);
    }
    assert Some(user) == MergeUser(stored, body);
    if !Validates(user) || EmailTakenByOther(db.users, user.email, id) {
      return 500;
    }
    if user != stored {
      user := user.(updatedAt := now);
    }
    db.users := db.users[id := user];
    return 200;
  }

  method HandleDeleteUser(db: Database, authorization: Option<string>, verify: Verifier, id: Id)
    returns (status: int)
    modifies db
    ensures var r := DeleteUser(old(db.Snapshot()), authorization, verify, id);
            status == r.status && db.Snapshot() == r.db
  {
    var step := RunAdminChain(authorization, verify);
    if step.Respond? {
      return step.status;
    }
    if id !in db.users {
      return 404;
    }
    db.users := db.users - {id};
    return 200;
  }

  // What the routes keep and what they do not

  lemma CreateUserPreservesIntegrity(db: Db, authorization: Option<string>, verify: Verifier,
                                     body: UserBody, now: int, newId: Id)
    requires Integrity(db)
    ensures Integrity(CreateUser(db, authorization, verify, body, now, newId).db)
  {
    var r := CreateUser(db, authorization, verify, body, now, newId);
    if r.status == 201 {
      var u := Build(body.email.value, body.pwd.value, body.userType, body.storeId, now).value;
      assert !EmailTakenByOther(db.users, u.email, newId);
      SavedUserKeepsIntegrity(db, newId, u);
    }
  }

  lemma UpdateUserPreservesIntegrity(db: Db, authorization: Option<string>, verify: Verifier,
                                     id: Id, body: UserBody, now: int)
    requires Integrity(db)
    ensures Integrity(UpdateUser(db, authorization, verify, id, body, now).db)
  {
    var r := UpdateUser(db, authorization, verify, id, body, now);
    if r.status == 200 {
      var m := MergeUser(db.users[id], body).value;
      if Truthy(body.email) {
        NormalizeEmailIdempotent(body.email.value);
      }
      assert UserModel.Valid(m);
      SavedUserKeepsIntegrity(db, id, Touched(db.users[id], m, now));
    }
  }

  /** Writing a valid user whose email no other user has, under a new or an existing id,
      keeps the constraints. */
  lemma SavedUserKeepsIntegrity(db: Db, id: Id, u: UserDoc)
    requires Integrity(db) && UserModel.Valid(u) && !EmailTakenByOther(db.users, u.email, id)
    ensures Integrity(db.(users := db.users[id := u]))
  {
    SavedUserKeepsEmailsUnique(db, id, u);
    SavedUserKeepsDocsValid(db, id, u);
    UserWriteKeepsReferences(db, db.(users := db.users[id := u]));
  }

  /** The constraints that do not look at users survive any change to the user table. */
  lemma UserWriteKeepsReferences(db: Db, d: Db)
    requires d.stores == db.stores && d.medicines == db.medicines && d.billings == db.billings
    requires StoreNamesUnique(db) && MedicineStoresExist(db) && BillingRefsExist(db) && BillingStoresMatch(db)
    ensures StoreNamesUnique(d) && MedicineStoresExist(d) && BillingRefsExist(d) && BillingStoresMatch(d)
  {
  }

  lemma SavedUserKeepsEmailsUnique(db: Db, id: Id, u: UserDoc)
    requires EmailsUnique(db) && !EmailTakenByOther(db.users, u.email, id)
    ensures EmailsUnique(db.(users := db.users[id := u]))
  {
    assert forall k :: k in db.users && k != id ==> db.users[k].email != u.email;
  }

  lemma SavedUserKeepsDocsValid(db: Db, id: Id, u: UserDoc)
    requires DocsValid(db) && UserModel.Valid(u)
    ensures DocsValid(db.(users := db.users[id := u]))
  {
  }

  lemma DeleteUserPreservesIntegrity(db: Db, authorization: Option<string>, verify: Verifier, id: Id)
    requires Integrity(db)
    ensures Integrity(DeleteUser(db, authorization, verify, id).db)
    ensures UserStoresExist(db) ==> UserStoresExist(DeleteUser(db, authorization, verify, id).db)
  {
  }

  /** POST and PUT take the store id as given: a user can be made to point at a store that
      does not exist. */
  lemma CreateUserMayReferenceMissingStore(db: Db, authorization: Option<string>, verify: Verifier,
                                           body: UserBody, now: int, newId: Id)
    requires CreateUser(db, authorization, verify, body, now, newId).status == 201
    requires body.storeId.value !in db.stores
    ensures !UserStoresExist(CreateUser(db, authorization, verify, body, now, newId).db)
  {
    var r := CreateUser(db, authorization, verify, body, now, newId);
    assert r.db.users[newId].storeId == body.storeId;
  }

  lemma UpdateUserMayReferenceMissingStore(db: Db, authorization: Option<string>, verify: Verifier,
                                           id: Id, body: UserBody, now: int)
    requires UpdateUser(db, authorization, verify, id, body, now).status == 200
    requires Truthy(body.storeId) && body.storeId.value !in db.stores
    ensures !UserStoresExist(UpdateUser(db, authorization, verify, id, body, now).db)
  {
    var r := UpdateUser(db, authorization, verify, id, body, now);
    assert r.db.users[id].storeId == body.storeId;
  }

  /** A PUT whose fields are all falsy changes nothing, not even the update time. */
  lemma EmptyUpdateChangesNothing(db: Db, authorization: Option<string>, verify: Verifier,
                                  id: Id, body: UserBody, now: int)
    requires id in db.users && UserModel.Valid(db.users[id]) && EmailsUnique(db) && AdminPasses(authorization, verify)
    requires !Truthy(body.email) && !Truthy(body.pwd) && !Truthy(body.userType) && !Truthy(body.storeId)
    ensures UpdateUser(db, authorization, verify, id, body, now) == Reply(200, db)
  {
    var u := db.users[id];
    assert MergeUser(u, body) == Some(u);
    assert !EmailTakenByOther(db.users, u.email, id);
    assert db.users[id := u] == db.users;
  }
}
