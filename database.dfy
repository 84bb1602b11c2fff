/**
 * The four collections as maps from document id to document, the integrity
 * constraints the application intends them to keep, and the mutable database
 * the route handlers update.
 */
module Database {
  import opened Wrappers
  import opened Ids
  import opened StoreModel
  import opened MedicineModel
  import opened BillingModel
  import opened UserModel

  datatype Db = Db(
    stores: map<Id, StoreDoc>,
    medicines: map<Id, MedicineDoc>,
    billings: map<Id, BillingDoc>,
    users: map<Id, UserDoc>)

  /** The HTTP status of a handler and the collections after it. */
  datatype Reply = Reply(status: int, db: Db)

  /** The HTTP status of a query and the documents it returns, by id. */
  datatype Listing<T> = Listing(status: int, items: map<Id, T>)

  /** The HTTP status of a lookup by id and the document found. */
  datatype Found<T> = Found(status: int, item: Option<T>)

  predicate SubMap<T(==)>(a: map<Id, T>, b: map<Id, T>) {
    forall k :: k in a ==> k in b && a[k] == b[k]
  }

  /** `find(filter)` on one collection: the documents the filter keeps, by id. */
  function Select<T(==)>(m: map<Id, T>, keep: (Id, T) -> bool): (r: map<Id, T>)
    ensures forall k :: k in r <==> k in m && keep(k, m[k])
    ensures SubMap(r, m)
  {
    map k | k in m && keep(k, m[k]) :: m[k]
  }

  // Queries the handlers issue

  /** `Store.findOne({ name })` finds something. */
  predicate StoreNamed(stores: map<Id, StoreDoc>, name: string) {
    exists k :: k in stores && stores[k].name == name
  }

  /** `Store.findOne({ name, _id: { $ne: id } })` finds something. */
  predicate OtherStoreNamed(stores: map<Id, StoreDoc>, name: string, id: Id) {
    exists k :: k in stores && k != id && stores[k].name == name
  }

  /** `Medicine.find({ storeId })` is not empty. */
  predicate StoreHasMedicines(db: Db, storeId: Id) {
    exists k :: k in db.medicines && db.medicines[k].storeId == storeId
  }

  /** `Billing.find({ storeId })` is not empty. */
  predicate StoreHasBillings(db: Db, storeId: Id) {
    exists k :: k in db.billings && db.billings[k].storeId == storeId
  }

  /** `Billing.find({ medicineId })` is not empty. */
  predicate MedicineHasBillings(db: Db, medicineId: Id) {
    exists k :: k in db.billings && db.billings[k].medicineId == medicineId
  }

  /** Some user other than `id` has this email (the unique index would refuse it). */
  predicate EmailTakenByOther(users: map<Id, UserDoc>, email: string, id: Id) {
    exists k :: k in users && k != id && users[k].email == email
  }

  /** `User.findOne({ email })` finds something. */
  predicate EmailTaken(users: map<Id, UserDoc>, email: string) {
    exists k :: k in users && users[k].email == email
  }

  // Integrity constraints

  /** The unique index on store names. */
  predicate StoreNamesUnique(db: Db) {
    forall a, b :: a in db.stores && b in db.stores && a != b ==> db.stores[a].name != db.stores[b].name
  }

  /** The unique index on user emails. */
  predicate EmailsUnique(db: Db) {
    forall a, b :: a in db.users && b in db.users && a != b ==> db.users[a].email != db.users[b].email
  }

  /** Every document conforms to its schema. */
  predicate DocsValid(db: Db) {
    && (forall k :: k in db.stores ==> StoreModel.Valid(db.stores[k]))
    && (forall k :: k in db.medicines ==> MedicineModel.Valid(db.medicines[k]))
    && (forall k :: k in db.billings ==> BillingModel.Valid(db.billings[k]))
    && (forall k :: k in db.users ==> UserModel.Valid(db.users[k]))
  }

  /** A medicine's store exists. */
  predicate MedicineStoresExist(db: Db) {
    forall k :: k in db.medicines ==> db.medicines[k].storeId in db.stores
  }

  /** A billing's medicine and store exist. */
  predicate BillingRefsExist(db: Db) {
    forall k :: k in db.billings ==> db.billings[k].medicineId in db.medicines && db.billings[k].storeId in db.stores
  }

  /** A billing's store is its medicine's store. */
  predicate BillingStoresMatch(db: Db) {
    forall k :: k in db.billings && db.billings[k].medicineId in db.medicines ==>
      db.medicines[db.billings[k].medicineId].storeId == db.billings[k].storeId
  }

  /** A user's store, when it has one, exists. */
  predicate UserStoresExist(db: Db) {
    forall k :: k in db.users && db.users[k].storeId.Some? ==> db.users[k].storeId.value in db.stores
  }

  /** The constraints on stores, medicines and billings the application means to keep. */
  predicate Integrity(db: Db) {
    StoreNamesUnique(db) && EmailsUnique(db) && DocsValid(db)
    && MedicineStoresExist(db) && BillingRefsExist(db) && BillingStoresMatch(db)
  }

  predicate StocksNonNegative(db: Db) {
    forall k :: k in db.medicines ==> db.medicines[k].stock >= 0
  }

  /** The schema's `min: 0` on stock. */
  lemma IntegrityBoundsStock(db: Db)
    requires DocsValid(db)
    ensures StocksNonNegative(db)
  {
  }

  /** The database the route handlers read and write. */
  class Database {
    var stores: map<Id, StoreDoc>
    var medicines: map<Id, MedicineDoc>
    var billings: map<Id, BillingDoc>
    var users: map<Id, UserDoc>

    constructor()
      ensures Snapshot() == Db(map[], map[], map[], map[])
    {
      stores, medicines, billings, users := map[], map[], map[], map[];
    }

    function Snapshot(): Db
      reads this
    {
      Db(stores, medicines, billings, users)
    }
  }

  lemma EmptyDbIntegrity()
    ensures Integrity(Db(map[], map[], map[], map[])) && UserStoresExist(Db(map[], map[], map[], map[]))
  {
  }
}
