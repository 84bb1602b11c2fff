/**
 * The prescription (billing) view: name fallbacks, the medicines offered for the chosen
 * store, the search filter, and the form with its submit guard.
 */
module ClientBilling {
  import opened Wrappers
  import opened Ids
  import opened Text
  import opened Seqs
  import opened ClientTypes
  import opened ClientApp
  import BillingRoutes

  /** `medicine?.name || 'Unknown Medicine'` */
  function MedicineName(m: MedicineView): (n: string)
    ensures n != ""
    ensures m.name != "" ==> n == m.name
    ensures m.name == "" ==> n == "Unknown Medicine"
  {
    if m.name != "" then m.name else "Unknown Medicine"
  }

  /** `getAvailableMedicines`: nothing before a store is chosen, then exactly its medicines. */
  function AvailableMedicines(medicines: seq<MedicineView>, storeId: Id): (r: seq<MedicineView>)
    ensures storeId == "" ==> r == []
    ensures forall m :: m in r <==> storeId != "" && m in medicines && m.store.id == storeId
  {
    if storeId == "" then [] else Filter((m: MedicineView) => m.store.id == storeId, medicines)
  }

  /** The search: patient name, number, medicine name or store name. */
  predicate BillingMatches(term: string, b: BillingView) {
    MatchesSearch(b.name, term) || MatchesSearch(b.number, term)
    || MatchesSearch(MedicineName(b.medicine), term) || MatchesSearch(StoreName(b.store), term)
  }

  /** `filteredBillings` */
  function FilteredBillings(billings: seq<BillingView>, term: string): (r: seq<BillingView>)
    ensures forall b :: b in r <==> b in billings && BillingMatches(term, b)
  {
    Filter((b: BillingView) => BillingMatches(term, b), billings)
  }

  /** An empty search shows every billing, in order. */
  lemma EmptySearchShowsAllBillings(billings: seq<BillingView>)
    ensures FilteredBillings(billings, "") == billings
  {
    forall b | b in billings
      ensures BillingMatches("", b)
    {
      EmptySearchMatches(b.name);
    }
    FilterAll((b: BillingView) => BillingMatches("", b), billings);
  }

  datatype BillingForm = BillingForm(
    medicineId: Id, storeId: Id, frequency: string, name: string, number: string, description: string)

  /** The form's defaults: frequency 'morning', everything else empty. */
  const EMPTY_FORM: BillingForm := BillingForm("", "", "morning", "", "", "")

  /** The submit guard: both ids chosen, name and number not blank. */
  predicate SubmitAllowed(f: BillingForm)
    ensures SubmitAllowed(f) ==> f.name != "" && f.number != ""
  {
    f.medicineId != "" && f.storeId != "" && !IsBlank(f.name) && !IsBlank(f.number)
  }

  /** The form as `handleEdit` fills it from a billing. */
  function FormOf(b: BillingView): (f: BillingForm)
    ensures f.medicineId == b.medicine.id && f.storeId == b.store.id && f.frequency == b.frequency
    ensures f.name == b.name && f.number == b.number
    ensures f.description == if b.description.Some? then b.description.value else ""
  {
    BillingForm(b.medicine.id, b.store.id, b.frequency, b.name, b.number, b.description.GetOr(""))
  }

  /** The body the form is sent as. */
  function BodyOf(f: BillingForm): (b: BillingRoutes.BillingBody)
    ensures BillingRoutes.FieldsMissing(b) <==>
      f.medicineId == "" || f.storeId == "" || f.frequency == "" || f.name == "" || f.number == ""
    ensures b.description == Some(f.description)
  {
    BillingRoutes.BillingBody(Some(f.medicineId), Some(f.storeId), Some(f.frequency), Some(f.name),
                              Some(f.number), Some(f.description))
  }

  /** A form the guard lets through never meets the server's missing-field check. */
  lemma SubmittedFormHasAllFields(f: BillingForm)
    requires SubmitAllowed(f) && f.frequency != ""
    ensures !BillingRoutes.FieldsMissing(BodyOf(f))
  {
    assert f.name != "" && f.number != "";
  }

  class BillingEditor {
    var form: BillingForm
    var editing: Option<BillingView>
    var showModal: bool

    constructor()
      ensures form == EMPTY_FORM && editing.None? && !showModal
    {
      form, editing, showModal := EMPTY_FORM, None, false;
    }

    /** `resetForm` */
    method ResetForm()
      modifies this
      ensures form == EMPTY_FORM && editing.None? && !showModal
    {
      form := EMPTY_FORM;
      editing := None;
      showModal := false;
    }

    /** `handleStoreChange`: sets the store, clears the medicine, keeps the rest. */
    method HandleStoreChange(storeId: Id)
      modifies this`form
      ensures form == old(form).(storeId := storeId, medicineId := "")
    {
      form := form.(storeId := storeId, medicineId := "");
    }

    /** `handleEdit` */
    method HandleEdit(b: BillingView)
      modifies this
      ensures editing == Some(b) && form == FormOf(b) && showModal
    {
      editing := Some(b);
      form := FormOf(b);
      showModal := true;
    }

    /** `handleDelete`: the billing is removed once the user confirms and the call succeeds. */
    method HandleDelete(ops: ListState<BillingView>, id: Id, confirmed: bool, response: ApiResult<()>)
      modifies ops`items
      ensures ops.items == if confirmed && response.Ok? then Removed(old(ops.items), ops.key, id) else old(ops.items)
    {
      if confirmed {
        var _ := ops.Delete(id, response);
      }
    }

    /** `handleSubmit`: a no-op unless the guard passes; then update or create through the
        shared list, and reset the form once the call succeeds. */
    method HandleSubmit(ops: ListState<BillingView>, response: ApiResult<BillingView>)
      returns (sent: Option<Submission<BillingForm>>)
      modifies this, ops`items
      ensures !SubmitAllowed(old(form)) ==>
        sent.None? && form == old(form) && editing == old(editing) && showModal == old(showModal)
        && ops.items == old(ops.items)
      ensures SubmitAllowed(old(form)) && old(editing).Some? ==>
        sent == Some(UpdateWith(old(editing).value.id, old(form)))
        && ops.items == (if response.Ok? then Replaced(old(ops.items), ops.key, old(editing).value.id, response.value)
                         else old(ops.items))
      ensures SubmitAllowed(old(form)) && old(editing).None? ==>
        sent == Some(CreateWith(old(form)))
        && ops.items == (if response.Ok? then old(ops.items) + [response.value] else old(ops.items))
      ensures SubmitAllowed(old(form)) && response.Ok? ==> form == EMPTY_FORM && editing.None? && !showModal
      ensures response.Failed? ==> form == old(form) && editing == old(editing) && showModal == old(showModal)
    {
      if !SubmitAllowed(form) {
        return None;
      }
      var outcome;
      if editing.Some? {
        sent := Some(UpdateWith(editing.value.id, form));
        outcome := ops.Update(editing.value.id, response);
      } else {
        sent := Some(CreateWith(form));
        outcome := ops.Create(response);
      }
      if outcome.Ok? {
        ResetForm();
      }
    }
  }
}
