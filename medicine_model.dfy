/** The Medicine schema: required name, store, expiry, stock (at least 0) and batch number. */
module MedicineModel {
  import opened Wrappers
  import opened Ids
  import opened Text

  /** `expiry` is the time value of the expiry date in milliseconds. */
  datatype MedicineDoc = MedicineDoc(
    name: string, storeId: Id, expiry: int, stock: int, batchNumber: string,
    createdAt: int, updatedAt: int)

  /** The schema's validators; the schema has no setters, so a stored medicine is valid
      exactly when it validates. */
  predicate Valid(m: MedicineDoc) {
    m.name != "" && m.storeId != "" && m.stock >= 0 && m.batchNumber != ""
  }

  /** `Medicine.create({...})`: validation of the given fields; a missing batch number
      fails `required`. */
  function Build(name: string, storeId: Id, expiry: int, stock: int, batchNumber: Option<string>, now: int)
    : (r: Option<MedicineDoc>)
    ensures r.Some? <==> name != "" && storeId != "" && stock >= 0 && Truthy(batchNumber)
    ensures r.Some? ==> Valid(r.value)
    ensures r.Some? ==> r.value == MedicineDoc(name, storeId, expiry, stock, batchNumber.value, now, now)
  {
    if name != "" && storeId != "" && stock >= 0 && Truthy(batchNumber) then
      Some(MedicineDoc(name, storeId, expiry, stock, batchNumber.value, now, now))
    else None
  }
}
