/** The Store schema: a required, trimmed, unique name and timestamps. */
module StoreModel {
  import opened Wrappers
  import opened Text

  datatype StoreDoc = StoreDoc(name: string, createdAt: int, updatedAt: int)

  /** What the schema's validators check: `required` refuses the empty string. */
  predicate Validates(s: StoreDoc) {
    s.name != ""
  }

  /** A stored store: it passed validation and its name went through the `trim` setter. */
  predicate Valid(s: StoreDoc) {
    Validates(s) && IsTrimmed(s.name)
  }

  /** `Store.create({ name })`: the `trim` setter, then validation; `None` is a ValidationError. */
  function Build(name: string, now: int): (r: Option<StoreDoc>)
    ensures r.Some? <==> !IsBlank(name)
    ensures r.Some? ==> Valid(r.value) && r.value == StoreDoc(Trim(name), now, now)
  {
    var n := Trim(name);
    if n == "" then None else Some(StoreDoc(n, now, now))
  }
}
