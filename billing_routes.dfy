/**
 * The `/api/billings` routes (prescriptions): listings by store and by medicine, lookup,
 * creation with its stock decrement, partial update and delete. None of them is
 * behind the `auth` middleware.
 */
module BillingRoutes {
  import opened Wrappers
  import opened Ids
  import opened Text
  import opened MedicineModel
  import opened BillingModel
  import opened Database

  /** A request body; `None` is an absent field. */
  datatype BillingBody = BillingBody(
    medicineId: Option<Id>, storeId: Option<Id>, frequency: Option<string>,
    name: Option<string>, number: Option<string>, description: Option<string>)

  /** GET / */
  function ListBillings(db: Db): (l: Listing<BillingDoc>)
    ensures l.status == 200 && l.items == db.billings
  {
    Listing(200, db.billings)
  }

  /** GET /store/:storeId: 404 for an unknown store, else exactly its billings. */
  function BillingsOfStore(db: Db, storeId: Id): (l: Listing<BillingDoc>)
    ensures l.status == 200 <==> storeId in db.stores
    ensures l.status != 200 ==> l.status == 404 && l.items == map[]
    ensures SubMap(l.items, db.billings)
    ensures forall k :: k in db.billings ==> (k in l.items <==> l.status == 200 && db.billings[k].storeId == storeId)
  {
    if storeId !in db.stores then Listing(404, map[])
    else Listing(200, Select(db.billings, (k: Id, b: BillingDoc) => b.storeId == storeId))
  }

  /** GET /medicine/:medicineId: 404 for an unknown medicine, else exactly its billings. */
  function BillingsOfMedicine(db: Db, medicineId: Id): (l: Listing<BillingDoc>)
    ensures l.status == 200 <==> medicineId in db.medicines
    ensures l.status != 200 ==> l.status == 404 && l.items == map[]
    ensures SubMap(l.items, db.billings)
    ensures forall k :: k in db.billings ==>
      (k in l.items <==> l.status == 200 && db.billings[k].medicineId == medicineId)
  {
    if medicineId !in db.medicines then Listing(404, map[])
    else Listing(200, Select(db.billings, (k: Id, b: BillingDoc) => b.medicineId == medicineId))
  }

  /** GET /:id */
  function GetBilling(db: Db, id: Id): (f: Found<BillingDoc>)
    ensures f.status == 200 <==> id in db.billings
    ensures f.status == 200 ==> f.item == Some(db.billings[id])
    ensures f.status != 200 ==> f.status == 404 && f.item.None?
  {
    if id in db.billings then Found(200, Some(db.billings[id])) else Found(404, None)
  }

  /** `!medicineId || !storeId || !frequency || !name || !number` */
  predicate FieldsMissing(body: BillingBody)
    ensures !FieldsMissing(body) ==>
      body.medicineId.Some? && body.medicineId.value != "" && body.storeId.Some? && body.storeId.value != "" && body.frequency.Some? && body.frequency.value != ""
      && body.name.Some? && body.name.value != "" && body.number.Some? && body.number.value != ""
    ensures body.name == Some("") || body.number == Some("") ==> FieldsMissing(body)
  {
    !Truthy(body.medicineId) || !Truthy(body.storeId) || !Truthy(body.frequency)
    || !Truthy(body.name) || !Truthy(body.number)
  }

  /** The checks POST makes before inserting, in order: which status the first failure gives. */
  function CreateChecks(db: Db, body: BillingBody): (s: Option<int>)
    ensures FieldsMissing(body) ==> s == Some(400)
    ensures !FieldsMissing(body) && !IsFrequency(body.frequency.value) ==> s == Some(400)
    ensures s.None? <==> !FieldsMissing(body) && IsFrequency(body.frequency.value)
                         && body.medicineId.value in db.medicines && body.storeId.value in db.stores
                         && db.medicines[body.medicineId.value].storeId == body.storeId.value
                         && db.medicines[body.medicineId.value].stock > 0
    ensures s.Some? ==> s.value in {400, 404}
  {
    if FieldsMissing(body) then Some(400)
    else if !IsFrequency(body.frequency.value) then Some(400)
    else if body.medicineId.value !in db.medicines then Some(404)
    else if body.storeId.value !in db.stores then Some(404)
    else if db.medicines[body.medicineId.value].storeId != body.storeId.value then Some(400)
    else if db.medicines[body.medicineId.value].stock <= 0 then Some(400)
    else None
  }

  /** `description ? description.trim() : undefined` */
  function Described(description: Option<string>): (d: Option<string>)
    ensures d.Some? <==> Truthy(description)
    ensures d.Some? ==> d.value == Trim(description.value)
  {
    if Truthy(description) then Some(Trim(description.value)) else None
  }

  /** The billing POST inserts: the trimmed fields, through the schema's own `trim` setters. */
  function NewBilling(body: BillingBody, now: int): (r: Option<BillingDoc>)
    requires !FieldsMissing(body)
    ensures r.Some? <==> IsFrequency(body.frequency.value) && !IsBlank(body.name.value) && !IsBlank(body.number.value)
    ensures r.Some? ==> BillingModel.Valid(r.value)
    ensures r.Some? ==> r.value == BillingDoc(body.medicineId.value, body.storeId.value, body.frequency.value,
                                              Trim(body.name.value), Trim(body.number.value),
                                              Described(body.description), now, now)
  {
    TrimIdempotent(body.name.value);
    TrimIdempotent(body.number.value);
    if Truthy(body.description) then TrimIdempotent(body.description.value);
      BillingModel.Build(body.medicineId.value, body.storeId.value, body.frequency.value,
                         Trim(body.name.value), Trim(body.number.value), Described(body.description), now)
    else
      BillingModel.Build(body.medicineId.value, body.storeId.value, body.frequency.value,
                         Trim(body.name.value), Trim(body.number.value), Described(body.description), now)
  }

  /** The medicine after `medicine.stock -= 1`, as `save` writes it. */
  function Dispensed(m: MedicineDoc, now: int): (d: MedicineDoc)
    ensures d.stock == m.stock - 1 && d.updatedAt == now
    ensures d.name == m.name && d.storeId == m.storeId && d.expiry == m.expiry
            && d.batchNumber == m.batchNumber && d.createdAt == m.createdAt
  {
    m.(stock := m.stock - 1, updatedAt := now)
  }

  /** POST /: the checks, then the insert (500 when the schema refuses it), then the stock
      decrement. The billing is committed first, so when the medicine's save fails the answer
      is 500 and the new billing stays, with no unit taken off the stock. */
  function CreateBilling(db: Db, body: BillingBody, now: int, newId: Id): (r: Reply)
    ensures CreateChecks(db, body).Some? ==> r == Reply(CreateChecks(db, body).value, db)
    ensures r.status == 201 <==> CreateChecks(db, body).None? && NewBilling(body, now).Some?
                                 && newId !in db.billings
                                 && MedicineModel.Valid(Dispensed(db.medicines[body.medicineId.value], now))
    ensures r.status == 201 ==>
      r.db == db.(billings := db.billings[newId := NewBilling(body, now).value],
                  medicines := db.medicines[body.medicineId.value := Dispensed(db.medicines[body.medicineId.value], now)])
    ensures CreateChecks(db, body).None? && r.status != 201 ==> r.status == 500
    ensures r.status != 201 && BillingKept(db, body, now, newId) ==>
      r.db == db.(billings := db.billings[newId := NewBilling(body, now).value])
    ensures r.status != 201 && !BillingKept(db, body, now, newId) ==> r.db == db
    ensures r.db.stores == db.stores && r.db.users == db.users
  {
    var checks := CreateChecks(db, body);
    if checks.Some? then Reply(checks.value, db)
    else InsertBilling(db, body, now, newId)
  }

  /** The checks pass and `Billing.create` succeeds, but saving the dispensed medicine fails
      its schema: the billing is already committed when the save throws. */
  predicate BillingKept(db: Db, body: BillingBody, now: int, newId: Id) {
    CreateChecks(db, body).None? && NewBilling(body, now).Some? && newId !in db.billings
    && !MedicineModel.Valid(Dispensed(db.medicines[body.medicineId.value], now))
  }

  /** What POST does once its checks pass: insert the billing (500 when the schema or the id
      refuses it), then save the medicine with one unit less (500 when its schema refuses it,
      with the billing left in place). */
  function InsertBilling(db: Db, body: BillingBody, now: int, newId: Id): (r: Reply)
    requires CreateChecks(db, body).None?
    ensures r.status in {201, 500}
    ensures r.status == 201 <==> NewBilling(body, now).Some? && newId !in db.billings
                                 && MedicineModel.Valid(Dispensed(db.medicines[body.medicineId.value], now))
    ensures r.status == 201 ==>
      r.db == db.(billings := db.billings[newId := NewBilling(body, now).value],
                  medicines := db.medicines[body.medicineId.value := Dispensed(db.medicines[body.medicineId.value], now)])
    ensures r.status != 201 && (NewBilling(body, now).None? || newId in db.billings) ==> r.db == db
    ensures r.status != 201 && NewBilling(body, now).Some? && newId !in db.billings ==>
      r.db == db.(billings := db.billings[newId := NewBilling(body, now).value])
  {
    var billing := NewBilling(body, now);
    if billing.None? then Reply(500, db)              // ValidationError
    else if newId in db.billings then Reply(500, db)  // duplicate key
    else
      var inserted := db.(billings := db.billings[newId := billing.value]);
      var medicineId := body.medicineId.value;
      var medicine := Dispensed(db.medicines[medicineId], now);
      if !MedicineModel.Valid(medicine) then Reply(500, inserted)
      else Reply(201, inserted.(medicines := db.medicines[medicineId := medicine]))
  }

  /** The checks PUT makes before updating, in order. */
  function UpdateChecks(db: Db, body: BillingBody): (s: Option<int>)
    ensures s.None? <==> (Truthy(body.frequency) ==> IsFrequency(body.frequency.value))
                         && (Truthy(body.medicineId) ==> body.medicineId.value in db.medicines)
                         && (Truthy(body.storeId) ==> body.storeId.value in db.stores)
                         && (Truthy(body.medicineId) && Truthy(body.storeId) ==>
                               db.medicines[body.medicineId.value].storeId == body.storeId.value)
    ensures s.Some? ==> s.value in {400, 404}
  {
    if Truthy(body.frequency) && !IsFrequency(body.frequency.value) then Some(400)
    else if Truthy(body.medicineId) && body.medicineId.value !in db.medicines then Some(404)
    else if Truthy(body.storeId) && body.storeId.value !in db.stores then Some(404)
    else if Truthy(body.medicineId) && Truthy(body.storeId)
            && db.medicines[body.medicineId.value].storeId != body.storeId.value then Some(400)
    else None
  }

  /** `updateData` applied by `findByIdAndUpdate`: every field present in the body is set,
      name, number and description trimmed; no validator runs. */
  function ApplyBillingUpdate(b: BillingDoc, body: BillingBody, now: int): (u: BillingDoc)
    ensures u.medicineId == body.medicineId.GetOr(b.medicineId) && u.storeId == body.storeId.GetOr(b.storeId)
    ensures u.frequency == body.frequency.GetOr(b.frequency)
    ensures u.name == (if body.name.Some? then Trim(body.name.value) else b.name)
    ensures u.number == (if body.number.Some? then Trim(body.number.value) else b.number)
    ensures u.description == (if body.description.Some? then Some(Trim(body.description.value)) else b.description)
    ensures u.createdAt == b.createdAt && u.updatedAt == now
  {
    BillingDoc(
      body.medicineId.GetOr(b.medicineId), body.storeId.GetOr(b.storeId), body.frequency.GetOr(b.frequency),
      if body.name.Some? then Trim(body.name.value) else b.name,
      if body.number.Some? then Trim(body.number.value) else b.number,
      if body.description.Some? then Some(Trim(body.description.value)) else b.description,
      b.createdAt, now)
  }

  /** An empty id in the update fails to cast to an ObjectId. */
  predicate EmptyIdGiven(body: BillingBody) {
    body.medicineId == Some("") || body.storeId == Some("")
  }

  /** PUT /:id: 400 / 404 from the checks, 500 for an id that fails to cast, 404 for an
      unknown billing, otherwise only the supplied fields of that billing change. */
  function UpdateBilling(db: Db, id: Id, body: BillingBody, now: int): (r: Reply)
    ensures UpdateChecks(db, body).Some? ==> r == Reply(UpdateChecks(db, body).value, db)
    ensures r.status == 200 <==> UpdateChecks(db, body).None? && !EmptyIdGiven(body) && id in db.billings
    ensures r.status == 200 ==> r.db == db.(billings := db.billings[id := ApplyBillingUpdate(db.billings[id], body, now)])
    ensures r.status != 200 ==> r.db == db
    ensures r.db.medicines == db.medicines && r.db.stores == db.stores && r.db.users == db.users
  {
    var checks := UpdateChecks(db, body);
    if checks.Some? then Reply(checks.value, db)
    else if EmptyIdGiven(body) then Reply(500, db)
    else if id !in db.billings then Reply(404, db)
    else Reply(200, db.(billings := db.billings[id := ApplyBillingUpdate(db.billings[id], body, now)]))
  }

  /** DELETE /:id: 404 for an unknown id, otherwise exactly that billing is removed;
      the medicine's stock is not given back. */
  function DeleteBilling(db: Db, id: Id): (r: Reply)
    ensures r.status == 200 <==> id in db.billings
    ensures r.status != 200 ==> r == Reply(404, db)
    ensures r.status == 200 ==> r.db == db.(billings := db.billings - {id})
    ensures r.db.medicines == db.medicines
  {
    if id !in db.billings then Reply(404, db) else Reply(200, db.(billings := db.billings - {id}))
  }

  // The handlers

  /** The guard chain of POST, in the order the handler runs it. */
  method CheckCreateBilling(db: Database, body: BillingBody) returns (failure: Option<int>)
    ensures failure == CreateChecks(db.Snapshot(), body)
  {
    if FieldsMissing(body) || !IsFrequency(body.frequency.value) {
      return Some(400);
    }
    var medicineId, storeId := body.medicineId.value, body.storeId.value;
    if medicineId !in db.medicines || storeId !in db.stores {
      return Some(404);
    }
    var medicine := db.medicines[medicineId];
    if medicine.storeId != storeId || medicine.stock <= 0 {
      return Some(400);
    }
    return None;
  }

  method HandleCreateBilling(db: Database, body: BillingBody, now: int, newId: Id) returns (status: int)
    modifies db
    ensures var r := CreateBilling(old(db.Snapshot()), body, now, newId);
            status == r.status && db.Snapshot() == r.db
  {
    var failure := CheckCreateBilling(db, body);
    if failure.Some? {
      return failure.value;
    }
    status := HandleInsertBilling(db, body, now, newId);
  }

  /** The writes of POST, run once the checks have passed: `Billing.create`, then
      `medicine.save()` on the medicine with one unit less. */
  method HandleInsertBilling(db: Database, body: BillingBody, now: int, newId: Id) returns (status: int)
    requires CreateChecks(db.Snapshot(), body).None?
    modifies db
    ensures var r := InsertBilling(old(db.Snapshot()), body, now, newId);
            status == r.status && db.Snapshot() == r.db
  {
    ghost var before := db.Snapshot();
    var billing := NewBilling(body, now);
    if billing.None? || newId in db.billings {
      return 500;
    }
    var medicineId := body.medicineId.value;
    var medicine := db.medicines[medicineId];
    medicine := medicine.(stock := medicine.stock - 1, updatedAt := now);
    assert medicine == Dispensed(before.medicines[medicineId], now);
    InsertBillingDoc(db, newId, billing.value);
    if !MedicineModel.Valid(medicine) {
      return 500;
    }
    SaveMedicine(db, medicineId, medicine);
    return 201;
  }

  /** `Billing.create`: the one billing is written and nothing else. */
  method InsertBillingDoc(db: Database, id: Id, b: BillingDoc)
    modifies db
    ensures db.Snapshot() == old(db.Snapshot()).(billings := old(db.billings)[id := b])
  {
    db.billings := db.billings[id := b];
  }

  /** `medicine.save()`: the one medicine is written and nothing else. */
  method SaveMedicine(db: Database, id: Id, m: MedicineDoc)
    modifies db
    ensures db.Snapshot() == old(db.Snapshot()).(medicines := old(db.medicines)[id := m])
  {
    db.medicines := db.medicines[id := m];
  }

  /** Builds `updateData` field by field and applies it to the stored billing. */
  method BuildBillingUpdate(b: BillingDoc, body: BillingBody, now: int) returns (u: BillingDoc)
    ensures u == ApplyBillingUpdate(b, body, now)
  {
    u := b;
    if body.medicineId.Some? {
      u := u.(medicineId := body.medicineId.value);
    }
    if body.storeId.Some? {
      u := u.(storeId := body.storeId.value);
    }
    if body.frequency.Some? {
      u := u.(frequency := body.frequency.value);
    }
    if body.name.Some? {
      u := u.(name := Trim(body.name.value));
    }
    if body.number.Some? {
      u := u.(number := Trim(body.number.value));
    }
    if body.description.Some? {
      u := u.(description := Some(Trim(body.description.value)));
    }
    u := u.(updatedAt := now);
  }

  method HandleUpdateBilling(db: Database, id: Id, body: BillingBody, now: int) returns (status: int)
    modifies db
    ensures var r := UpdateBilling(old(db.Snapshot()), id, body, now);
            status == r.status && db.Snapshot() == r.db
  {
    if Truthy(body.frequency) && !IsFrequency(body.frequency.value) {
      return 400;
    }
    if Truthy(body.medicineId) && body.medicineId.value !in db.medicines {
      return 404;
    }
    if Truthy(body.storeId) && body.storeId.value !in db.stores {
      return 404;
    }
    if Truthy(body.medicineId) && Truthy(body.storeId) {
      if db.medicines[body.medicineId.value].storeId != body.storeId.value {
        return 400;
      }
    }
    if EmptyIdGiven(body) {
      return 500;
    }
    if id !in db.billings {
      return 404;
    }
    var b := BuildBillingUpdate(db.billings[id], body, now);
    db.billings := db.billings[id := b];
    return 200;
  }

  method HandleDeleteBilling(db: Database, id: Id) returns (status: int)
    modifies db
    ensures var r := DeleteBilling(old(db.Snapshot()), id);
            status == r.status && db.Snapshot() == r.db
  {
    if id !in db.billings {
      return 404;
    }
    db.billings := db.billings - {id};
    return 200;
  }

  // What the routes keep and what they do not

  /** A successful POST lowers the stock of exactly that medicine by one, and it stays at
      least 0; no other medicine changes and exactly one billing is added. */
  lemma CreateBillingDispensesOne(db: Db, body: BillingBody, now: int, newId: Id)
    requires CreateBilling(db, body, now, newId).status == 201
    ensures var r := CreateBilling(db, body, now, newId);
            var m := body.medicineId.value;
            && m in r.db.medicines && r.db.medicines[m].stock == db.medicines[m].stock - 1
            && r.db.medicines[m].stock >= 0
            && (forall k :: k in db.medicines && k != m ==> k in r.db.medicines && r.db.medicines[k] == db.medicines[k])
            && r.db.medicines.Keys == db.medicines.Keys
            && r.db.billings.Keys == db.billings.Keys + {newId} && newId !in db.billings
            && SubMap(db.billings, r.db.billings)
  {
    var m := body.medicineId.value;
    assert CreateChecks(db, body).None?;
    DispensedTables(db, m, newId, NewBilling(body, now).value, now);
  }

  /** The two writes of a successful POST, on their own. */
  lemma DispensedTables(db: Db, m: Id, newId: Id, b: BillingDoc, now: int)
    requires m in db.medicines && db.medicines[m].stock > 0 && newId !in db.billings
    ensures var d := db.(billings := db.billings[newId := b],
                         medicines := db.medicines[m := Dispensed(db.medicines[m], now)]);
            && m in d.medicines && d.medicines[m].stock == db.medicines[m].stock - 1
            && d.medicines[m].stock >= 0
            && (forall k :: k in db.medicines && k != m ==> k in d.medicines && d.medicines[k] == db.medicines[k])
            && d.medicines.Keys == db.medicines.Keys
            && d.billings.Keys == db.billings.Keys + {newId}
            && SubMap(db.billings, d.billings)
  {
    var d := db.(billings := db.billings[newId := b],
                 medicines := db.medicines[m := Dispensed(db.medicines[m], now)]);
    assert d.medicines.Keys == db.medicines.Keys;
  }

  /** Under the constraints, the stock save after the insert cannot fail. */
  lemma CreateBillingSaveSucceeds(db: Db, body: BillingBody, now: int, newId: Id)
    requires DocsValid(db)
    ensures CreateBilling(db, body, now, newId).status == 201 <==>
            CreateChecks(db, body).None? && NewBilling(body, now).Some? && newId !in db.billings
  {
    if CreateChecks(db, body).None? {
      var m := db.medicines[body.medicineId.value];
      assert MedicineModel.Valid(m);
      assert MedicineModel.Valid(Dispensed(m, now));
    }
  }

  /** A medicine whose stored record breaks its schema (a blank name, which PUT accepts) still
      passes POST's checks; the insert is committed, the save throws, and the answer is 500
      with the new billing kept and no unit taken off the stock. */
  lemma CreateBillingMayKeepBillingOnFailedSave(db: Db, body: BillingBody, now: int, newId: Id)
    requires CreateChecks(db, body).None? && NewBilling(body, now).Some? && newId !in db.billings
    requires db.medicines[body.medicineId.value].name == ""
    ensures var r := CreateBilling(db, body, now, newId);
            && r.status == 500 && newId in r.db.billings && r.db.billings[newId] == NewBilling(body, now).value
            && r.db.medicines == db.medicines
  {
    assert !MedicineModel.Valid(Dispensed(db.medicines[body.medicineId.value], now));
  }

  lemma CreateBillingPreservesIntegrity(db: Db, body: BillingBody, now: int, newId: Id)
    requires Integrity(db)
    ensures Integrity(CreateBilling(db, body, now, newId).db)
  {
    var r := CreateBilling(db, body, now, newId);
    CreateBillingSaveSucceeds(db, body, now, newId);
    if r.status == 201 {
      InsertedBillingKeepsIntegrity(db, newId, NewBilling(body, now).value, body.medicineId.value, now);
    }
  }

  /** Inserting a valid billing of an in-stock medicine of the billing's store, with that
      medicine dispensed, keeps the constraints. */
  lemma InsertedBillingKeepsIntegrity(db: Db, newId: Id, b: BillingDoc, m: Id, now: int)
    requires Integrity(db) && BillingModel.Valid(b) && newId !in db.billings
    requires b.medicineId == m && m in db.medicines && db.medicines[m].storeId == b.storeId
    requires b.storeId in db.stores && db.medicines[m].stock > 0
    ensures Integrity(db.(billings := db.billings[newId := b], medicines := db.medicines[m := Dispensed(db.medicines[m], now)]))
  {
    var d := db.(billings := db.billings[newId := b], medicines := db.medicines[m := Dispensed(db.medicines[m], now)]);
    assert MedicineModel.Valid(d.medicines[m]);
    assert DocsValid(d);
    assert MedicineStoresExist(d);
    assert BillingRefsExist(d);
    forall k | k in d.billings && d.billings[k].medicineId in d.medicines
      ensures d.medicines[d.billings[k].medicineId].storeId == d.billings[k].storeId
    {
      if k != newId {
        assert d.billings[k] == db.billings[k];
      }
    }
  }

  lemma DeleteBillingPreservesIntegrity(db: Db, id: Id)
    requires Integrity(db)
    ensures Integrity(DeleteBilling(db, id).db)
  {
  }

  /** A PUT that gives both ids, or neither, keeps every billing in its medicine's store. */
  lemma UpdateBillingBothIdsKeepsStoresMatch(db: Db, id: Id, body: BillingBody, now: int)
    requires BillingStoresMatch(db) && MedicineStoresExist(db)
    requires body.medicineId.None? <==> body.storeId.None?
    ensures BillingStoresMatch(UpdateBilling(db, id, body, now).db)
  {
    var r := UpdateBilling(db, id, body, now);
    if r.status == 200 && body.medicineId.Some? {
      assert r.db.billings[id].medicineId == body.medicineId.value;
      assert db.medicines[body.medicineId.value].storeId == body.storeId.value;
    }
  }

  /** A PUT that gives only a medicine id can attach the billing to a medicine of another
      store: the consistency check needs both ids. */
  lemma UpdateBillingMedicineOnlyBreaksStoresMatch(db: Db, id: Id, body: BillingBody, now: int)
    requires UpdateBilling(db, id, body, now).status == 200
    requires body.medicineId.Some? && body.storeId.None?
    requires db.medicines[body.medicineId.value].storeId != db.billings[id].storeId
    ensures !BillingStoresMatch(UpdateBilling(db, id, body, now).db)
  {
    var r := UpdateBilling(db, id, body, now);
    assert r.db.billings[id].medicineId in r.db.medicines;
  }

  /** Likewise a PUT that gives only a store id can move the billing away from its medicine's store. */
  lemma UpdateBillingStoreOnlyBreaksStoresMatch(db: Db, id: Id, body: BillingBody, now: int)
    requires UpdateBilling(db, id, body, now).status == 200
    requires body.storeId.Some? && body.medicineId.None?
    requires db.billings[id].medicineId in db.medicines
    requires db.medicines[db.billings[id].medicineId].storeId != body.storeId.value
    ensures !BillingStoresMatch(UpdateBilling(db, id, body, now).db)
  {
    var r := UpdateBilling(db, id, body, now);
    assert r.db.billings[id].medicineId in r.db.medicines;
  }

  /** PUT runs no validators: an empty frequency skips the enum check and is stored. */
  lemma UpdateBillingMayStoreEmptyFrequency(db: Db, id: Id, body: BillingBody, now: int)
    requires UpdateBilling(db, id, body, now).status == 200
    requires body.frequency == Some("")
    ensures !DocsValid(UpdateBilling(db, id, body, now).db)
  {
    var r := UpdateBilling(db, id, body, now);
    assert !BillingModel.Valid(r.db.billings[id]);
  }
}
