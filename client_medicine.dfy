/**
 * The medicine view: expiry status and stock badges, the search filter, and the form with
 * its submit guard. Dates are time values in milliseconds; `today` is the clock reading.
 */
module ClientMedicine {
  import opened Wrappers
  import opened Ids
  import opened Text
  import opened Seqs
  import opened ClientTypes
  import opened ClientApp

  /** Milliseconds in a day, `1000 * 3600 * 24`. */
  const DAY: int := 86400000

  /** `Math.ceil(ms / DAY)` on a whole number of milliseconds. */
  function DaysCeil(ms: int): (d: int)
    ensures DAY * (d - 1) < ms <= DAY * d
  {
    -((-ms) / DAY)
  }

  /** `isExpiringSoon`: between one and thirty days left, rounding partial days up. */
  predicate IsExpiringSoon(expiry: int, today: int)
    ensures IsExpiringSoon(expiry, today) ==> today < expiry
  {
    var days := DaysCeil(expiry - today);
    days <= 30 && days > 0
  }

  /** Expiring soon means later than now and at most thirty whole days later. */
  lemma ExpiringSoonWindow(expiry: int, today: int)
    ensures IsExpiringSoon(expiry, today) <==> today < expiry <= today + 30 * DAY
  {
    var days := DaysCeil(expiry - today);
    assert DAY * (days - 1) < expiry - today <= DAY * days;
  }

  /** `isExpired`: the expiry lies before now. */
  predicate IsExpired(expiry: int, today: int)
    ensures IsExpired(expiry, today) ==> !IsExpiringSoon(expiry, today)
  {
    expiry < today
  }

  /** The status column. */
  datatype ExpiryStatus = Expired | ExpiringSoon | Good

  function StatusOf(expiry: int, today: int): (s: ExpiryStatus)
    ensures s == Expired <==> expiry < today
  {
    if IsExpired(expiry, today) then Expired
    else if IsExpiringSoon(expiry, today) then ExpiringSoon
    else Good
  }

  /** A medicine is shown as good when it expires exactly now or more than thirty days on. */
  lemma GoodStatusWindow(expiry: int, today: int)
    ensures StatusOf(expiry, today) == Good <==> expiry == today || expiry > today + 30 * DAY
    ensures StatusOf(expiry, today) == ExpiringSoon <==> today < expiry <= today + 30 * DAY
  {
    ExpiringSoonWindow(expiry, today);
  }

  /** The stock badge colours. */
  datatype Badge = Red | Yellow | Green

  function StockBadge(stock: int): (b: Badge)
    ensures b == Red <==> stock <= 10
    ensures b == Green <==> stock > 50
  {
    if stock <= 10 then Red else if stock <= 50 then Yellow else Green
  }

  function BadgeRank(b: Badge): int {
    match b
    case Red => 0
    case Yellow => 1
    case Green => 2
  }

  /** More stock never gives a more alarming badge. */
  lemma StockBadgeMonotone(s1: int, s2: int)
    requires s1 <= s2
    ensures BadgeRank(StockBadge(s1)) <= BadgeRank(StockBadge(s2))
  {
  }

  /** The search: medicine name, store name or batch number. */
  predicate MedicineMatches(term: string, m: MedicineView) {
    MatchesSearch(m.name, term) || MatchesSearch(StoreName(m.store), term) || MatchesSearch(m.batchNumber, term)
  }

  /** `filteredMedicines` */
  function FilteredMedicines(medicines: seq<MedicineView>, term: string): (r: seq<MedicineView>)
    ensures forall m :: m in r <==> m in medicines && MedicineMatches(term, m)
  {
    Filter((m: MedicineView) => MedicineMatches(term, m), medicines)
  }

  /** An empty search shows every medicine, in order. */
  lemma EmptySearchShowsAllMedicines(medicines: seq<MedicineView>)
    ensures FilteredMedicines(medicines, "") == medicines
  {
    forall m | m in medicines
      ensures MedicineMatches("", m)
    {
      EmptySearchMatches(m.name);
    }
    FilterAll((m: MedicineView) => MedicineMatches("", m), medicines);
  }

  /** The form; `expirydate` is the text of the date input. */
  datatype MedicineForm = MedicineForm(name: string, storeId: Id, expirydate: string, stock: int, batchNumber: string)

  const EMPTY_FORM: MedicineForm := MedicineForm("", "", "", 0, "")

  /** The submit guard. */
  predicate SubmitAllowed(f: MedicineForm)
    ensures SubmitAllowed(f) ==> f.name != "" && f.batchNumber != "" && f.stock >= 0
  {
    !IsBlank(f.name) && f.storeId != "" && f.expirydate != "" && f.stock >= 0 && !IsBlank(f.batchNumber)
  }

  /** The form as `handleEdit` fills it; `isoDate` is the `YYYY-MM-DD` formatting of a time value. */
  function FormOf(m: MedicineView, isoDate: int -> string): (f: MedicineForm)
    ensures f.name == m.name && f.storeId == m.store.id && f.expirydate == isoDate(m.expirydate)
    ensures f.stock == m.stock && f.batchNumber == m.batchNumber
  {
    MedicineForm(m.name, m.store.id, isoDate(m.expirydate), m.stock, m.batchNumber)
  }

  class MedicineEditor {
    var form: MedicineForm
    var editing: Option<MedicineView>
    var showModal: bool

    constructor()
      ensures form == EMPTY_FORM && editing.None? && !showModal
    {
      form, editing, showModal := EMPTY_FORM, None, false;
    }

    /** `resetForm` */
    method ResetForm()
      modifies this
      ensures form == EMPTY_FORM && editing.None? && !showModal
    {
      form := EMPTY_FORM;
      editing := None;
      showModal := false;
    }

    /** `handleEdit` */
    method HandleEdit(m: MedicineView, isoDate: int -> string)
      modifies this
      ensures editing == Some(m) && form == FormOf(m, isoDate) && showModal
    {
      editing := Some(m);
      form := FormOf(m, isoDate);
      showModal := true;
    }

    /** `handleDelete`: the medicine is removed once the user confirms and the call succeeds. */
    method HandleDelete(ops: ListState<MedicineView>, id: Id, confirmed: bool, response: ApiResult<()>)
      modifies ops`items
      ensures ops.items == if confirmed && response.Ok? then Removed(old(ops.items), ops.key, id) else old(ops.items)
    {
      if confirmed {
        var _ := ops.Delete(id, response);
      }
    }

    /** `handleSubmit`: a no-op unless the guard passes; then update or create through the
        shared list, and reset the form once the call succeeds. */
    method HandleSubmit(ops: ListState<MedicineView>, response: ApiResult<MedicineView>)
      returns (sent: Option<Submission<MedicineForm>>)
      modifies this, ops`items
      ensures !SubmitAllowed(old(form)) ==>
        sent.None? && form == old(form) && editing == old(editing) && showModal == old(showModal)
        && ops.items == old(ops.items)
      ensures SubmitAllowed(old(form)) && old(editing).Some? ==>
        sent == Some(UpdateWith(old(editing).value.id, old(form)))
        && ops.items == (if response.Ok? then Replaced(old(ops.items), ops.key, old(editing).value.id, response.value)
                         else old(ops.items))
      ensures SubmitAllowed(old(form)) && old(editing).None? ==>
        sent == Some(CreateWith(old(form)))
        && ops.items == (if response.Ok? then old(ops.items) + [response.value] else old(ops.items))
      ensures SubmitAllowed(old(form)) && response.Ok? ==> form == EMPTY_FORM && editing.None? && !showModal
      ensures response.Failed? ==> form == old(form) && editing == old(editing) && showModal == old(showModal)
    {
      if !SubmitAllowed(form) {
        return None;
      }
      var outcome;
      if editing.Some? {
        sent := Some(UpdateWith(editing.value.id, form));
        outcome := ops.Update(editing.value.id, response);
      } else {
        sent := Some(CreateWith(form));
        outcome := ops.Create(response);
      }
      if outcome.Ok? {
        ResetForm();
      }
    }
  }
}
