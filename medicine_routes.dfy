/**
 * The `/api/medicines` routes: role-scoped listing, lookups, and the admin-only
 * create, update, stock patch and guarded delete.
 */
module MedicineRoutes {
  import opened Wrappers
  import opened Ids
  import opened Text
  import opened MedicineModel
  import opened BillingModel
  import opened UserModel
  import opened Database
  import opened Middleware

  /** The `expirydate` field as the handlers see it, `new Date(...)` already applied:
      a falsy value, text that is not a date, or an instant in milliseconds. */
  datatype DateText = Falsy | Unparsable | Instant(millis: int)

  /** A request body; `None` is an absent field. */
  datatype MedicineBody = MedicineBody(
    name: Option<string>, storeId: Option<Id>, expirydate: Option<DateText>, stock: Option<int>,
    batchNumber: Option<string>)

  /** GET /: an admin sees every medicine, anyone else those of the store in their token. */
  function ListMedicines(db: Db, authorization: Option<string>, verify: Verifier): (l: Listing<MedicineDoc>)
    ensures l.status == 200 <==> Authenticate(authorization, verify).Authenticated?
    ensures l.status != 200 ==> l.status == 401 && l.items == map[]
    ensures SubMap(l.items, db.medicines)
    ensures l.status == 200 ==>
      var user := Authenticate(authorization, verify).user;
      forall k :: k in db.medicines ==>
        (k in l.items <==> user.role == Admin || user.storeId == Some(db.medicines[k].storeId))
  {
    match Authenticate(authorization, verify)
    case Unauthorized => Listing(401, map[])
    case Authenticated(user) =>
      if user.role == Admin then Listing(200, db.medicines)
      else Listing(200, Select(db.medicines, (k: Id, m: MedicineDoc) => user.storeId == Some(m.storeId)))
  }

  /** GET /store/:storeId: 404 for an unknown store, else exactly its medicines. */
  function MedicinesByStore(db: Db, storeId: Id): (l: Listing<MedicineDoc>)
    ensures l.status == 200 <==> storeId in db.stores
    ensures l.status != 200 ==> l.status == 404 && l.items == map[]
    ensures SubMap(l.items, db.medicines)
    ensures forall k :: k in db.medicines ==>
      (k in l.items <==> l.status == 200 && db.medicines[k].storeId == storeId)
  {
    if storeId !in db.stores then Listing(404, map[])
    else Listing(200, Select(db.medicines, (k: Id, m: MedicineDoc) => m.storeId == storeId))
  }

  /** GET /:id */
  function GetMedicine(db: Db, id: Id): (f: Found<MedicineDoc>)
    ensures f.status == 200 <==> id in db.medicines
    ensures f.status == 200 ==> f.item == Some(db.medicines[id])
    ensures f.status != 200 ==> f.status == 404 && f.item.None?
  {
    if id in db.medicines then Found(200, Some(db.medicines[id])) else Found(404, None)
  }

  /** `!name || !storeId || !expirydate || stock === undefined` */
  predicate FieldsMissing(body: MedicineBody)
    ensures body.stock == Some(0) ==>
      (FieldsMissing(body) <==> (!Truthy(body.name) || !Truthy(body.storeId) || body.expirydate in {None, Some(Falsy)}))
    ensures !FieldsMissing(body) ==> body.name.Some? && body.name.value != "" && body.storeId.Some? && body.storeId.value != "" && body.stock.Some?
  {
    !Truthy(body.name) || !Truthy(body.storeId) || body.expirydate.None? || body.expirydate == Some(Falsy)
    || body.stock.None?
  }

  /** The checks POST makes before inserting, in order: which status the first failure gives. */
  function CreateChecks(db: Db, body: MedicineBody, now: int): (s: Option<int>)
    ensures s.None? <==> !FieldsMissing(body) && body.stock.value >= 0 && body.storeId.value in db.stores
                         && body.expirydate.value.Instant? && body.expirydate.value.millis >= now
    ensures s.Some? ==> s.value in {400, 404}
  {
    if FieldsMissing(body) then Some(400)
    else if body.stock.value < 0 then Some(400)
    else if body.storeId.value !in db.stores then Some(404)
    else if body.expirydate.value.Unparsable? then Some(400)
    else if body.expirydate.value.millis < now then Some(400)
    else None
  }

  /** POST / with the batch number the insert is given. */
  function CreateMedicineWith(db: Db, authorization: Option<string>, verify: Verifier,
                              body: MedicineBody, now: int, newId: Id, batch: Option<string>): (r: Reply)
    ensures !AdminPasses(authorization, verify) ==> r == Reply(AdminGate(authorization, verify).status, db)
    ensures AdminPasses(authorization, verify) && CreateChecks(db, body, now).Some?
            ==> r == Reply(CreateChecks(db, body, now).value, db)
    ensures r.status == 201 <==> AdminPasses(authorization, verify) && CreateChecks(db, body, now).None?
                                 && Trim(body.name.value) != "" && Truthy(batch) && newId !in db.medicines
    ensures r.status == 201 ==> r.db == db.(medicines := db.medicines[newId :=
      MedicineDoc(Trim(body.name.value), body.storeId.value, body.expirydate.value.millis, body.stock.value,
                  batch.value, now, now)])
    ensures AdminPasses(authorization, verify) && CreateChecks(db, body, now).None? && r.status != 201
            ==> r.status == 500
    ensures r.status != 201 ==> r.db == db
  {
    var gate := AdminGate(authorization, verify);
    if gate.Respond? then Reply(gate.status, db)
    else
      var checks := CreateChecks(db, body, now);
      if checks.Some? then Reply(checks.value, db)
      else
        var doc := MedicineModel.Build(Trim(body.name.value), body.storeId.value, body.expirydate.value.millis,
                                       body.stock.value, batch, now);
        if doc.None? then Reply(500, db)          // ValidationError
        else if newId in db.medicines then Reply(500, db)
        else Reply(201, db.(medicines := db.medicines[newId := doc.value]))
  }

  /** POST / as written: the insert is not given the batch number, which the schema requires. */
  function CreateMedicine(db: Db, authorization: Option<string>, verify: Verifier,
                          body: MedicineBody, now: int, newId: Id): (r: Reply)
    ensures r.db == db && r.status != 201
    ensures AdminPasses(authorization, verify) && CreateChecks(db, body, now).None? ==> r.status == 500
  {
    CreateMedicineWith(db, authorization, verify, body, now, newId, None)
  }

  /** POST / passing the batch number of the body on to the insert. */
  function CreateMedicineCorrected(db: Db, authorization: Option<string>, verify: Verifier,
                                   body: MedicineBody, now: int, newId: Id): (r: Reply)
    ensures r.status == 201 <==> AdminPasses(authorization, verify) && CreateChecks(db, body, now).None?
                                 && Trim(body.name.value) != "" && Truthy(body.batchNumber) && newId !in db.medicines
    ensures r.status == 201 ==> newId in r.db.medicines && r.db.medicines[newId].batchNumber == body.batchNumber.value
  {
    CreateMedicineWith(db, authorization, verify, body, now, newId, body.batchNumber)
  }

  /** The checks PUT makes before updating, in order. */
  function UpdateChecks(db: Db, body: MedicineBody, now: int): (s: Option<int>)
    ensures s.None? <==> (body.stock.Some? ==> body.stock.value >= 0)
                         && (Truthy(body.storeId) ==> body.storeId.value in db.stores)
                         && (body.expirydate.Some? && body.expirydate.value != Falsy ==>
                               body.expirydate.value.Instant? && body.expirydate.value.millis >= now)
    ensures s.Some? ==> s.value in {400, 404}
  {
    if body.stock.Some? && body.stock.value < 0 then Some(400)
    else if Truthy(body.storeId) && body.storeId.value !in db.stores then Some(404)
    else if body.expirydate.Some? && body.expirydate.value.Unparsable? then Some(400)
    else if body.expirydate.Some? && body.expirydate.value.Instant? && body.expirydate.value.millis < now then Some(400)
    else None
  }

  /** `updateData` applied by `findByIdAndUpdate`: each field present in the body is set,
      the name trimmed; no validator runs. A falsy expiry date leaves the field as it was. */
  function ApplyMedicineUpdate(m: MedicineDoc, body: MedicineBody, now: int): (u: MedicineDoc)
    ensures u.name == if body.name.Some? then Trim(body.name.value) else m.name
    ensures u.storeId == if body.storeId.Some? then body.storeId.value else m.storeId
    ensures u.expiry == if body.expirydate.Some? && body.expirydate.value.Instant? then body.expirydate.value.millis else m.expiry
    ensures u.stock == body.stock.GetOr(m.stock)
    ensures u.batchNumber == m.batchNumber && u.createdAt == m.createdAt && u.updatedAt == now
  {
    MedicineDoc(
      if body.name.Some? then Trim(body.name.value) else m.name,
      body.storeId.GetOr(m.storeId),
      if body.expirydate.Some? && body.expirydate.value.Instant? then body.expirydate.value.millis else m.expiry,
      body.stock.GetOr(m.stock),
      m.batchNumber, m.createdAt, now)
  }

  /** PUT /:id: 400 / 404 from the checks, 500 when an empty store id fails to cast,
      404 for an unknown medicine, otherwise only the supplied fields change. */
  function UpdateMedicine(db: Db, authorization: Option<string>, verify: Verifier,
                          id: Id, body: MedicineBody, now: int): (r: Reply)
    ensures !AdminPasses(authorization, verify) ==> r == Reply(AdminGate(authorization, verify).status, db)
    ensures AdminPasses(authorization, verify) && UpdateChecks(db, body, now).Some?
            ==> r == Reply(UpdateChecks(db, body, now).value, db)
    ensures r.status == 200 <==> AdminPasses(authorization, verify) && UpdateChecks(db, body, now).None?
                                 && body.storeId != Some("") && id in db.medicines
    ensures r.status == 200 ==> r.db == db.(medicines := db.medicines[id := ApplyMedicineUpdate(db.medicines[id], body, now)])
    ensures r.status != 200 ==> r.db == db
  {
    var gate := AdminGate(authorization, verify);
    if gate.Respond? then Reply(gate.status, db)
    else
      var checks := UpdateChecks(db, body, now);
      if checks.Some? then Reply(checks.value, db)
      else if body.storeId == Some("") then Reply(500, db)   // CastError
      else if id !in db.medicines then Reply(404, db)
      else Reply(200, db.(medicines := db.medicines[id := ApplyMedicineUpdate(db.medicines[id], body, now)]))
  }

  /** PATCH /:id/stock: 400 for a missing or negative stock, 404 for an unknown id,
      otherwise only that medicine's stock (and update time) changes. */
  function PatchStock(db: Db, authorization: Option<string>, verify: Verifier,
                      id: Id, stock: Option<int>, now: int): (r: Reply)
    ensures !AdminPasses(authorization, verify) ==> r == Reply(AdminGate(authorization, verify).status, db)
    ensures AdminPasses(authorization, verify) && (stock.None? || stock.value < 0) ==> r == Reply(400, db)
    ensures r.status == 200 <==> AdminPasses(authorization, verify) && stock.Some? && stock.value >= 0 && id in db.medicines
    ensures r.status == 200 ==> r.db == db.(medicines := db.medicines[id := db.medicines[id].(stock := stock.value, updatedAt := now)])
    ensures r.status != 200 ==> r.db == db
  {
    var gate := AdminGate(authorization, verify);
    if gate.Respond? then Reply(gate.status, db)
    else if stock.None? || stock.value < 0 then Reply(400, db)
    else if id !in db.medicines then Reply(404, db)
    else Reply(200, db.(medicines := db.medicines[id := db.medicines[id].(stock := stock.value, updatedAt := now)]))
  }

  /** DELETE /:id: 400 while a billing references the medicine (checked before the medicine
      is looked up), 404 for an unknown id, otherwise exactly that medicine is removed. */
  function DeleteMedicine(db: Db, authorization: Option<string>, verify: Verifier, id: Id): (r: Reply)
    ensures !AdminPasses(authorization, verify) ==> r == Reply(AdminGate(authorization, verify).status, db)
    ensures AdminPasses(authorization, verify) && MedicineHasBillings(db, id) ==> r == Reply(400, db)
    ensures r.status == 200 <==> AdminPasses(authorization, verify) && !MedicineHasBillings(db, id) && id in db.medicines
    ensures r.status == 200 ==> r.db == db.(medicines := db.medicines - {id})
    ensures r.status != 200 ==> r.db == db && r.status in {400, 401, 403, 404}
  {
    var gate := AdminGate(authorization, verify);
    if gate.Respond? then Reply(gate.status, db)
    else if MedicineHasBillings(db, id) then Reply(400, db)
    else if id !in db.medicines then Reply(404, db)
    else Reply(200, db.(medicines := db.medicines - {id}))
  }

  // The handlers

  method HandleListMedicines(db: Database, authorization: Option<string>, verify: Verifier)
    returns (l: Listing<MedicineDoc>)
    ensures l == ListMedicines(db.Snapshot(), authorization, verify)
  {
    var a := RunAuth(authorization, verify);
    if a.Unauthorized? {
      return Listing(401, map[]);
    }
    if a.user.role == Admin {
      l := Listing(200, db.medicines);
    } else {
      l := Listing(200, Select(db.medicines, (k: Id, m: MedicineDoc) => a.user.storeId == Some(m.storeId)));
    }
  }

  /** POST / with the batch number the insert is given. */
  method HandleCreateMedicineWith(db: Database, authorization: Option<string>, verify: Verifier,
                                  body: MedicineBody, now: int, newId: Id, batch: Option<string>)
    returns (status: int)
    modifies db
    ensures var r := CreateMedicineWith(old(db.Snapshot()), authorization, verify, body, now, newId, batch);
            status == r.status && db.Snapshot() == r.db
  {
    var step := RunAdminChain(authorization, verify);
    if step.Respond? {
      return step.status;
    }
    if FieldsMissing(body) || body.stock.value < 0 {
      return 400;
    }
    if body.storeId.value !in db.stores {
      return 404;
    }
    var expiry := body.expirydate.value;
    if expiry.Unparsable? || expiry.millis < now {
      return 400;
    }
    assert CreateChecks(db.Snapshot(), body, now).None?;
    var doc := MedicineModel.Build(Trim(body.name.value), body.storeId.value, expiry.millis, body.stock.value, batch, now);
    if doc.None? || newId in db.medicines {
      return 500;
    }
    db.medicines := db.medicines[newId := doc.value];
    return 201;
  }

  /** POST / as written: `Medicine.create` is given name, storeId, expirydate and stock only. */
  method HandleCreateMedicine(db: Database, authorization: Option<string>, verify: Verifier,
                              body: MedicineBody, now: int, newId: Id) returns (status: int)
    modifies db
    ensures var r := CreateMedicine(old(db.Snapshot()), authorization, verify, body, now, newId);
            status == r.status && db.Snapshot() == r.db
  {
    status := HandleCreateMedicineWith(db, authorization, verify, body, now, newId, None);
  }

  method HandleUpdateMedicine(db: Database, authorization: Option<string>, verify: Verifier,
                              id: Id, body: MedicineBody, now: int) returns (status: int)
    modifies db
    ensures var r := UpdateMedicine(old(db.Snapshot()), authorization, verify, id, body, now);
            status == r.status && db.Snapshot() == r.db
  {
    var step := RunAdminChain(authorization, verify);
    if step.Respond? {
      return step.status;
    }
    if body.stock.Some? && body.stock.value < 0 {
      return 400;
    }
    if Truthy(body.storeId) && body.storeId.value !in db.stores {
      return 404;
    }
    if body.expirydate.Some? && body.expirydate.value != Falsy {
      var expiry := body.expirydate.value;
      if expiry.Unparsable? || expiry.millis < now {
        return 400;
      }
    }
    if body.storeId == Some("") {
      return 500;
    }
    if id !in db.medicines {
      return 404;
    }
    var m := BuildMedicineUpdate(db.medicines[id], body, now);
    db.medicines := db.medicines[id := m];
    return 200;
  }

  /** Builds `updateData` field by field and applies it to the stored medicine. */
  method BuildMedicineUpdate(m: MedicineDoc, body: MedicineBody, now: int) returns (u: MedicineDoc)
    ensures u == ApplyMedicineUpdate(m, body, now)
  {
    u := m;
    if body.name.Some? {
      u := u.(name := Trim(body.name.value));
    }
    if body.storeId.Some? {
      u := u.(storeId := body.storeId.value);
    }
    if body.expirydate.Some? && body.expirydate.value.Instant? {
      u := u.(expiry := body.expirydate.value.millis);
    }
    if body.stock.Some? {
      u := u.(stock := body.stock.value);
    }
    u := u.(updatedAt := now);
  }

  method HandlePatchStock(db: Database, authorization: Option<string>, verify: Verifier,
                          id: Id, stock: Option<int>, now: int) returns (status: int)
    modifies db
    ensures var r := PatchStock(old(db.Snapshot()), authorization, verify, id, stock, now);
            status == r.status && db.Snapshot() == r.db
  {
    var step := RunAdminChain(authorization, verify);
    if step.Respond? {
      return step.status;
    }
    if stock.None? || stock.value < 0 {
      return 400;
    }
    if id !in db.medicines {
      return 404;
    }
    db.medicines := db.medicines[id := db.medicines[id].(stock := stock.value, updatedAt := now)];
    return 200;
  }

  method HandleDeleteMedicine(db: Database, authorization: Option<string>, verify: Verifier, id: Id)
    returns (status: int)
    modifies db
    ensures var r := DeleteMedicine(old(db.Snapshot()), authorization, verify, id);
            status == r.status && db.Snapshot() == r.db
  {
    var step := RunAdminChain(authorization, verify);
    if step.Respond? {
      return step.status;
    }
    if MedicineHasBillings(db.Snapshot(), id) {
      return 400;
    }
    if id !in db.medicines {
      return 404;
    }
    db.medicines := db.medicines - {id};
    return 200;
  }

  // What the routes keep and what they do not

  /** An admin request that passes every check of POST, with a non-blank name and a batch
      number, still gets 500 as written, and 201 once the batch number is passed on. */
  lemma BatchNumberOmission(db: Db, authorization: Option<string>, verify: Verifier,
                            body: MedicineBody, now: int, newId: Id)
    requires AdminPasses(authorization, verify) && CreateChecks(db, body, now).None?
    requires Trim(body.name.value) != "" && Truthy(body.batchNumber) && newId !in db.medicines
    ensures CreateMedicine(db, authorization, verify, body, now, newId).status == 500
    ensures CreateMedicineCorrected(db, authorization, verify, body, now, newId).status == 201
  {
  }

  lemma CreateMedicineCorrectedPreservesIntegrity(db: Db, authorization: Option<string>, verify: Verifier,
                                                  body: MedicineBody, now: int, newId: Id)
    requires Integrity(db)
    ensures Integrity(CreateMedicineCorrected(db, authorization, verify, body, now, newId).db)
  {
    var r := CreateMedicineWith(db, authorization, verify, body, now, newId, body.batchNumber);
    if r.status == 201 {
      var m := MedicineDoc(Trim(body.name.value), body.storeId.value, body.expirydate.value.millis, body.stock.value,
                           body.batchNumber.value, now, now);
      assert r.db == db.(medicines := db.medicines[newId := m]);
      InsertedMedicineKeepsIntegrity(db, newId, m);
    }
  }

  /** Inserting a valid medicine of an existing store under a fresh id keeps the constraints:
      no billing can reference an id that was not there. */
  lemma InsertedMedicineKeepsIntegrity(db: Db, newId: Id, m: MedicineDoc)
    requires Integrity(db) && newId !in db.medicines && MedicineModel.Valid(m) && m.storeId in db.stores
    ensures Integrity(db.(medicines := db.medicines[newId := m]))
  {
    var d := db.(medicines := db.medicines[newId := m]);
    assert forall k :: k in db.billings ==> db.billings[k].medicineId != newId;
    assert DocsValid(d);
    assert MedicineStoresExist(d);
    assert BillingRefsExist(d);
    assert BillingStoresMatch(d);
  }

  lemma PatchStockPreservesIntegrity(db: Db, authorization: Option<string>, verify: Verifier,
                                     id: Id, stock: Option<int>, now: int)
    requires Integrity(db)
    ensures Integrity(PatchStock(db, authorization, verify, id, stock, now).db)
  {
    var r := PatchStock(db, authorization, verify, id, stock, now);
    if r.status == 200 {
      assert MedicineModel.Valid(r.db.medicines[id]);
    }
  }

  lemma DeleteMedicinePreservesIntegrity(db: Db, authorization: Option<string>, verify: Verifier, id: Id)
    requires Integrity(db)
    ensures Integrity(DeleteMedicine(db, authorization, verify, id).db)
  {
    var r := DeleteMedicine(db, authorization, verify, id);
    if r.status == 200 {
      assert forall k :: k in db.billings ==> db.billings[k].medicineId != id;
    }
  }

  /** PUT may move a medicine to another store without looking at its billings: a successful
      move breaks "a billing's store is its medicine's store" iff a billing references it. */
  lemma UpdateMedicineMayMoveStore(db: Db, authorization: Option<string>, verify: Verifier,
                                   id: Id, body: MedicineBody, now: int)
    requires BillingStoresMatch(db)
    requires UpdateMedicine(db, authorization, verify, id, body, now).status == 200
    requires body.storeId.Some? && body.storeId.value != db.medicines[id].storeId
    ensures BillingStoresMatch(UpdateMedicine(db, authorization, verify, id, body, now).db)
            <==> !MedicineHasBillings(db, id)
  {
    var r := UpdateMedicine(db, authorization, verify, id, body, now);
    if MedicineHasBillings(db, id) {
      var k :| k in db.billings && db.billings[k].medicineId == id;
      assert db.billings[k].storeId == db.medicines[id].storeId;
      assert r.db.medicines[id].storeId != r.db.billings[k].storeId;
    }
  }

  /** PUT runs no validators: a blank name is stored, and the stored medicine is then invalid. */
  lemma UpdateMedicineMayStoreBlankName(db: Db, authorization: Option<string>, verify: Verifier,
                                        id: Id, body: MedicineBody, now: int)
    requires UpdateMedicine(db, authorization, verify, id, body, now).status == 200
    requires body.name.Some? && IsBlank(body.name.value)
    ensures !DocsValid(UpdateMedicine(db, authorization, verify, id, body, now).db)
  {
    var r := UpdateMedicine(db, authorization, verify, id, body, now);
    assert !MedicineModel.Valid(r.db.medicines[id]);
  }

  /** A PUT whose fields are all valid, and that names no store or keeps the medicine's
      store, preserves the constraints. */
  lemma UpdateMedicineInPlacePreservesIntegrity(db: Db, authorization: Option<string>, verify: Verifier,
                                                id: Id, body: MedicineBody, now: int)
    requires Integrity(db)
    requires body.name.Some? ==> !IsBlank(body.name.value)
    requires body.storeId.Some? && id in db.medicines ==> body.storeId.value == db.medicines[id].storeId
    ensures Integrity(UpdateMedicine(db, authorization, verify, id, body, now).db)
  {
    var r := UpdateMedicine(db, authorization, verify, id, body, now);
    if r.status == 200 {
      assert MedicineModel.Valid(r.db.medicines[id]);
      assert r.db.medicines[id].storeId == db.medicines[id].storeId;
    }
  }
}
