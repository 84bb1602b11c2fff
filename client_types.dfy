/** The records the client receives from the API, with the references the server
    populates already replaced by the referenced record. */
module ClientTypes {
  import opened Wrappers
  import opened Ids

  datatype StoreView = StoreView(id: Id, name: string)

  /** `expirydate` is the time value of the date, in milliseconds. */
  datatype MedicineView = MedicineView(
    id: Id, name: string, store: StoreView, expirydate: int, stock: int, batchNumber: string)

  datatype BillingView = BillingView(
    id: Id, medicine: MedicineView, store: StoreView, frequency: string,
    name: string, number: string, description: Option<string>)

  /** A user's `storeId` as the client receives it: absent, an id, or the populated store. */
  datatype StoreRef = NoStore | ById(storeId: Id) | Populated(store: StoreView)

  datatype UserView = UserView(id: Id, email: string, userType: string, storeRef: StoreRef)

  function StoreKey(s: StoreView): Id { s.id }
  function MedicineKey(m: MedicineView): Id { m.id }
  function BillingKey(b: BillingView): Id { b.id }
  function UserKey(u: UserView): Id { u.id }

  /** The outcome of an API call: the record the server returned, or a thrown error. */
  datatype ApiResult<T> = Ok(value: T) | Failed

  /** `store?.name || 'Unknown Store'`, as the views write it. */
  function StoreName(s: StoreView): (n: string)
    ensures n != ""
    ensures s.name != "" ==> n == s.name
    ensures s.name == "" ==> n == "Unknown Store"
  {
    if s.name != "" then s.name else "Unknown Store"
  }

  /** What a form's submit sends: an update of the record being edited, or a create. */
  datatype Submission<F> = CreateWith(form: F) | UpdateWith(id: Id, form: F)
}
