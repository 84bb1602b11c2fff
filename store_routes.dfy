/**
 * The `/api/stores` routes: role-scoped listing, lookup, the medicines of a
 * store, and the admin-only create, rename and guarded delete.
 */
module StoreRoutes {
  import opened Wrappers
  import opened Ids
  import opened Text
  import opened StoreModel
  import opened MedicineModel
  import opened UserModel
  import opened Database
  import opened Middleware

  // The decisions of the handlers

  /** GET /: an admin sees every store, anyone else only the store of their token. */
  function ListStores(db: Db, authorization: Option<string>, verify: Verifier): (l: Listing<StoreDoc>)
    ensures l.status == 200 <==> Authenticate(authorization, verify).Authenticated?
    ensures l.status != 200 ==> l.status == 401 && l.items == map[]
    ensures SubMap(l.items, db.stores)
    ensures l.status == 200 ==>
      var user := Authenticate(authorization, verify).user;
      forall k :: k in db.stores ==> (k in l.items <==> user.role == Admin || user.storeId == Some(k))
  {
    match Authenticate(authorization, verify)
    case Unauthorized => Listing(401, map[])
    case Authenticated(user) =>
      if user.role == Admin then Listing(200, db.stores)
      else Listing(200, Select(db.stores, (k: Id, s: StoreDoc) => user.storeId == Some(k)))
  }

  /** GET /:id */
  function GetStore(db: Db, id: Id): (f: Found<StoreDoc>)
    ensures f.status == 200 <==> id in db.stores
    ensures f.status == 200 ==> f.item == Some(db.stores[id])
    ensures f.status != 200 ==> f.status == 404 && f.item.None?
  {
    if id in db.stores then Found(200, Some(db.stores[id])) else Found(404, None)
  }

  /** GET /:id/medicines: 404 for an unknown store, else exactly the medicines it holds. */
  function MedicinesOfStore(db: Db, id: Id): (l: Listing<MedicineDoc>)
    ensures l.status == 200 <==> id in db.stores
    ensures l.status != 200 ==> l.status == 404 && l.items == map[]
    ensures SubMap(l.items, db.medicines)
    ensures forall k :: k in db.medicines ==> (k in l.items <==> l.status == 200 && db.medicines[k].storeId == id)
  {
    if id !in db.stores then Listing(404, map[])
    else Listing(200, Select(db.medicines, (k: Id, m: MedicineDoc) => m.storeId == id))
  }

  /** `!name || name.trim() === ''` */
  predicate NameMissing(name: Option<string>)
    ensures NameMissing(name) <==> name.None? || forall i :: 0 <= i < |name.value| ==> IsSpace(name.value[i])
  {
    if name.None? then true
    else BlankIffAllSpace(name.value); IsBlank(name.value)
  }

  /** POST /: 400 for a blank name or one an existing store already has (after trimming),
      otherwise the trimmed name is inserted under the id the database assigns. */
  function CreateStore(db: Db, authorization: Option<string>, verify: Verifier,
                       name: Option<string>, now: int, newId: Id): (r: Reply)
    ensures !AdminPasses(authorization, verify) ==> r == Reply(AdminGate(authorization, verify).status, db)
    ensures AdminPasses(authorization, verify) && NameMissing(name) ==> r == Reply(400, db)
    ensures AdminPasses(authorization, verify) && !NameMissing(name) && StoreNamed(db.stores, Trim(name.value))
            ==> r == Reply(400, db)
    ensures r.status == 201 <==> AdminPasses(authorization, verify) && !NameMissing(name)
                                 && !StoreNamed(db.stores, Trim(name.value)) && newId !in db.stores
    ensures r.status == 201 ==> r.db == db.(stores := db.stores[newId := StoreDoc(Trim(name.value), now, now)])
    ensures r.status != 201 ==> r.db == db
  {
    var gate := AdminGate(authorization, verify);
    if gate.Respond? then Reply(gate.status, db)
    else if NameMissing(name) then Reply(400, db)
    else if StoreNamed(db.stores, Trim(name.value)) then Reply(400, db)
    else
      var store := StoreModel.Build(name.value, now).value;
      // an id the collection already holds is a duplicate-key error
      if newId in db.stores then Reply(500, db)
      else Reply(201, db.(stores := db.stores[newId := store]))
  }

  /** PUT /:id: 400 for a blank name or one a *different* store has, 404 for an unknown
      id, otherwise only that store's name and update time change. */
  function UpdateStore(db: Db, authorization: Option<string>, verify: Verifier,
                       id: Id, name: Option<string>, now: int): (r: Reply)
    ensures !AdminPasses(authorization, verify) ==> r == Reply(AdminGate(authorization, verify).status, db)
    ensures AdminPasses(authorization, verify) && NameMissing(name) ==> r == Reply(400, db)
    ensures AdminPasses(authorization, verify) && !NameMissing(name) && OtherStoreNamed(db.stores, Trim(name.value), id)
            ==> r == Reply(400, db)
    ensures r.status == 200 <==> AdminPasses(authorization, verify) && !NameMissing(name)
                                 && !OtherStoreNamed(db.stores, Trim(name.value), id) && id in db.stores
    ensures r.status == 200 ==>
      r.db == db.(stores := db.stores[id := StoreDoc(Trim(name.value), db.stores[id].createdAt, now)])
    ensures r.status != 200 ==> r.db == db && r.status in {400, 401, 403, 404}
  {
    var gate := AdminGate(authorization, verify);
    if gate.Respond? then Reply(gate.status, db)
    else if NameMissing(name) then Reply(400, db)
    else if OtherStoreNamed(db.stores, Trim(name.value), id) then Reply(400, db)
    else if id !in db.stores then Reply(404, db)
    else Reply(200, db.(stores := db.stores[id := db.stores[id].(name := Trim(name.value), updatedAt := now)]))
  }

  /** DELETE /:id: 400 while medicines, then while billings, reference the store; 404 for an
      unknown id; otherwise exactly that store is removed. */
  function DeleteStore(db: Db, authorization: Option<string>, verify: Verifier, id: Id): (r: Reply)
    ensures !AdminPasses(authorization, verify) ==> r == Reply(AdminGate(authorization, verify).status, db)
    ensures AdminPasses(authorization, verify) && (StoreHasMedicines(db, id) || StoreHasBillings(db, id))
            ==> r == Reply(400, db)
    ensures r.status == 200 <==> AdminPasses(authorization, verify) && !StoreHasMedicines(db, id)
                                 && !StoreHasBillings(db, id) && id in db.stores
    ensures r.status == 200 ==> r.db == db.(stores := db.stores - {id})
    ensures r.status != 200 ==> r.db == db && r.status in {400, 401, 403, 404}
  {
    var gate := AdminGate(authorization, verify);
    if gate.Respond? then Reply(gate.status, db)
    else if StoreHasMedicines(db, id) then Reply(400, db)
    else if StoreHasBillings(db, id) then Reply(400, db)
    else if id !in db.stores then Reply(404, db)
    else Reply(200, db.(stores := db.stores - {id}))
  }

  // The handlers

  method HandleListStores(db: Database, authorization: Option<string>, verify: Verifier)
    returns (l: Listing<StoreDoc>)
    ensures l == ListStores(db.Snapshot(), authorization, verify)
  {
    var a := RunAuth(authorization, verify);
    if a.Unauthorized? {
      return Listing(401, map[]);
    }
    if a.user.role == Admin {
      l := Listing(200, db.stores);
    } else {
      l := Listing(200, Select(db.stores, (k: Id, s: StoreDoc) => a.user.storeId == Some(k)));
    }
  }

  method HandleCreateStore(db: Database, authorization: Option<string>, verify: Verifier,
                           name: Option<string>, now: int, newId: Id) returns (status: int)
    modifies db
    ensures var r := CreateStore(old(db.Snapshot()), authorization, verify, name, now, newId);
            status == r.status && db.Snapshot() == r.db
  {
    var step := RunAdminChain(authorization, verify);
    if step.Respond? {
      return step.status;
    }
    if !Truthy(name) || Trim(name.value) == "" {
      return 400;
    }
    var trimmed := Trim(name.value);
    if StoreNamed(db.stores, trimmed) {
      return 400;
    }
    if newId in db.stores {
      return 500;
    }
    db.stores := db.stores[newId := StoreDoc(trimmed, now, now)];
    return 201;
  }

  method HandleUpdateStore(db: Database, authorization: Option<string>, verify: Verifier,
                           id: Id, name: Option<string>, now: int) returns (status: int)
    modifies db
    ensures var r := UpdateStore(old(db.Snapshot()), authorization, verify, id, name, now);
            status == r.status && db.Snapshot() == r.db
  {
    var step := RunAdminChain(authorization, verify);
    if step.Respond? {
      return step.status;
    }
    if !Truthy(name) || Trim(name.value) == "" {
      return 400;
    }
    var trimmed := Trim(name.value);
    if OtherStoreNamed(db.stores, trimmed, id) {
      return 400;
    }
    if id !in db.stores {
      return 404;
    }
    db.stores := db.stores[id := db.stores[id].(name := trimmed, updatedAt := now)];
    return 200;
  }

  method HandleDeleteStore(db: Database, authorization: Option<string>, verify: Verifier, id: Id)
    returns (status: int)
    modifies db
    ensures var r := DeleteStore(old(db.Snapshot()), authorization, verify, id);
            status == r.status && db.Snapshot() == r.db
  {
    var step := RunAdminChain(authorization, verify);
    if step.Respond? {
      return step.status;
    }
    if StoreHasMedicines(db.Snapshot(), id) || StoreHasBillings(db.Snapshot(), id) {
      return 400;
    }
    if id !in db.stores {
      return 404;
    }
    db.stores := db.stores - {id};
    return 200;
  }

  // What the routes keep and what they do not

  lemma CreateStorePreservesIntegrity(db: Db, authorization: Option<string>, verify: Verifier,
                                      name: Option<string>, now: int, newId: Id)
    requires Integrity(db)
    ensures Integrity(CreateStore(db, authorization, verify, name, now, newId).db)
  {
    var r := CreateStore(db, authorization, verify, name, now, newId);
    if r.status == 201 {
      var store := StoreModel.Build(name.value, now).value;
      assert r.db == db.(stores := db.stores[newId := store]);
      assert !OtherStoreNamed(db.stores, store.name, newId);
      SavedStoreKeepsIntegrity(db, newId, store);
    }
  }

  lemma UpdateStorePreservesIntegrity(db: Db, authorization: Option<string>, verify: Verifier,
                                      id: Id, name: Option<string>, now: int)
    requires Integrity(db)
    ensures Integrity(UpdateStore(db, authorization, verify, id, name, now).db)
  {
    var r := UpdateStore(db, authorization, verify, id, name, now);
    if r.status == 200 {
      var store := StoreDoc(Trim(name.value), db.stores[id].createdAt, now);
      assert StoreModel.Build(name.value, now).Some?;
      assert StoreModel.Valid(store);
      SavedStoreKeepsIntegrity(db, id, store);
    }
  }

  /** Writing a valid store whose name no other store has, under a new or an existing id,
      keeps the constraints: stores only gain ids or keep them. */
  lemma SavedStoreKeepsIntegrity(db: Db, id: Id, store: StoreDoc)
    requires Integrity(db) && StoreModel.Valid(store) && !OtherStoreNamed(db.stores, store.name, id)
    ensures Integrity(db.(stores := db.stores[id := store]))
  {
    var d := db.(stores := db.stores[id := store]);
    assert forall k :: k in db.stores && k != id ==> db.stores[k].name != store.name;
    assert StoreNamesUnique(d);
    assert DocsValid(d);
    assert MedicineStoresExist(d) && BillingRefsExist(d);
  }

  lemma DeleteStorePreservesIntegrity(db: Db, authorization: Option<string>, verify: Verifier, id: Id)
    requires Integrity(db)
    ensures Integrity(DeleteStore(db, authorization, verify, id).db)
  {
    var r := DeleteStore(db, authorization, verify, id);
    if r.status == 200 {
      assert forall k :: k in db.medicines ==> db.medicines[k].storeId != id;
      assert forall k :: k in db.billings ==> db.billings[k].storeId != id;
    }
  }

  /** Renaming a store to the name it already has succeeds: only other stores clash. */
  lemma RenameToOwnNameSucceeds(db: Db, authorization: Option<string>, verify: Verifier,
                                id: Id, name: string, now: int)
    requires StoreNamesUnique(db) && AdminPasses(authorization, verify)
    requires id in db.stores && db.stores[id].name != "" && Trim(name) == db.stores[id].name
    ensures UpdateStore(db, authorization, verify, id, Some(name), now).status == 200
  {
    assert !OtherStoreNamed(db.stores, Trim(name), id);
  }

  /** Users that belong to a store keep pointing at it after it is deleted: a successful
      delete leaves every user's store in place iff no user referenced the deleted one. */
  lemma DeleteStoreOrphansUsers(db: Db, authorization: Option<string>, verify: Verifier, id: Id)
    requires UserStoresExist(db)
    requires DeleteStore(db, authorization, verify, id).status == 200
    ensures UserStoresExist(DeleteStore(db, authorization, verify, id).db)
            <==> !exists k :: k in db.users && db.users[k].storeId == Some(id)
  {
    var r := DeleteStore(db, authorization, verify, id);
    if exists k :: k in db.users && db.users[k].storeId == Some(id) {
      var k :| k in db.users && db.users[k].storeId == Some(id);
      assert r.db.users[k].storeId.value !in r.db.stores;
    }
  }

  lemma CreateAndUpdateStoreKeepUserStores(db: Db, authorization: Option<string>, verify: Verifier,
                                           id: Id, name: Option<string>, now: int, newId: Id)
    requires UserStoresExist(db)
    ensures UserStoresExist(CreateStore(db, authorization, verify, name, now, newId).db)
    ensures UserStoresExist(UpdateStore(db, authorization, verify, id, name, now).db)
  {
  }
}
