/** The Billing (prescription) schema. */
module BillingModel {
  import opened Wrappers
  import opened Ids
  import opened Text

  datatype BillingDoc = BillingDoc(
    medicineId: Id, storeId: Id, frequency: string, name: string, number: string,
    description: Option<string>, createdAt: int, updatedAt: int)

  /** The `enum` of the frequency field. */
  predicate IsFrequency(f: string) {
    f == "morning" || f == "evening"
  }

  /** What the schema's validators check: required references, the frequency enum,
      required name and number; the description is optional. */
  predicate Validates(b: BillingDoc) {
    b.medicineId != "" && b.storeId != "" && IsFrequency(b.frequency) && b.name != "" && b.number != ""
  }

  /** A stored billing: valid, with name, number and description through the `trim` setter. */
  predicate Valid(b: BillingDoc) {
    Validates(b) && IsTrimmed(b.name) && IsTrimmed(b.number)
    && (b.description.Some? ==> IsTrimmed(b.description.value))
  }

  function TrimOpt(s: Option<string>): (r: Option<string>)
    ensures r.Some? <==> s.Some?
    ensures r.Some? ==> r.value == Trim(s.value)
  {
    match s
    case None => None
    case Some(v) => Some(Trim(v))
  }

  /** `Billing.create({...})`: the `trim` setters, then validation. */
  function Build(medicineId: Id, storeId: Id, frequency: string, name: string, number: string,
                 description: Option<string>, now: int): (r: Option<BillingDoc>)
    ensures r.Some? <==> medicineId != "" && storeId != "" && IsFrequency(frequency)
                         && !IsBlank(name) && !IsBlank(number)
    ensures r.Some? ==> Valid(r.value)
    ensures r.Some? ==> r.value == BillingDoc(medicineId, storeId, frequency, Trim(name), Trim(number),
                                              TrimOpt(description), now, now)
  {
    var d := BillingDoc(medicineId, storeId, frequency, Trim(name), Trim(number), TrimOpt(description), now, now);
    if Validates(d) then Some(d) else None
  }
}
