/**
 * The store view: the search filter, the submit guard with its create-or-update choice,
 * and the controls shown only to an administrator.
 */
module ClientStore {
  import opened Wrappers
  import opened Ids
  import opened Text
  import opened Seqs
  import opened ClientTypes
  import opened ClientApp
  import UserModel
  import StoreRoutes

  /** `filteredStores`: the stores whose name contains the term, ignoring case. */
  function FilteredStores(stores: seq<StoreView>, term: string): (r: seq<StoreView>)
    ensures forall s :: s in r <==> s in stores && MatchesSearch(s.name, term)
  {
    Filter((s: StoreView) => MatchesSearch(s.name, term), stores)
  }

  /** An empty search shows every store, in order. */
  lemma EmptySearchShowsAllStores(stores: seq<StoreView>)
    ensures FilteredStores(stores, "") == stores
  {
    forall s | s in stores
      ensures MatchesSearch(s.name, "")
    {
      EmptySearchMatches(s.name);
    }
    FilterAll((s: StoreView) => MatchesSearch(s.name, ""), stores);
  }

  /** Searching the filtered list again with the same term changes nothing. */
  lemma StoreSearchIdempotent(stores: seq<StoreView>, term: string)
    ensures FilteredStores(FilteredStores(stores, term), term) == FilteredStores(stores, term)
  {
    FilterIdempotent((s: StoreView) => MatchesSearch(s.name, term), stores);
  }

  /** The submit guard: a name that is not blank. */
  predicate SubmitAllowed(name: string)
    ensures SubmitAllowed(name) <==> exists i :: 0 <= i < |name| && !IsSpace(name[i])
  {
    BlankIffAllSpace(name);
    !IsBlank(name)
  }

  /** The name is sent untrimmed; the guard lets through exactly the names the server accepts
      as present. */
  lemma SubmitGuardMatchesServer(name: string)
    ensures SubmitAllowed(name) <==> !StoreRoutes.NameMissing(Some(name))
  {
  }

  /** `currentUser?.type === 'admin'`: the add, edit and delete controls. */
  predicate ShowAdminControls(currentUser: Option<UserView>)
    ensures currentUser.None? ==> !ShowAdminControls(currentUser)
  {
    currentUser.Some? && currentUser.value.userType == "admin"
  }

  /** The user the view receives from `/me`. */
  function ViewOfProfile(p: UserModel.Profile): (u: UserView)
    ensures u.id == p.id && u.email == p.email && u.userType == UserModel.RoleName(p.role)
    ensures p.storeId.None? <==> u.storeRef.NoStore?
  {
    UserView(p.id, p.email, UserModel.RoleName(p.role), if p.storeId.Some? then ById(p.storeId.value) else NoStore)
  }

  /** The controls appear exactly for the administrator role. */
  lemma AdminControlsIffAdmin(p: UserModel.Profile)
    ensures ShowAdminControls(Some(ViewOfProfile(p))) <==> p.role == UserModel.Admin
  {
  }

  class StoreEditor {
    var name: string
    var editing: Option<StoreView>
    var showModal: bool

    constructor()
      ensures name == "" && editing.None? && !showModal
    {
      name, editing, showModal := "", None, false;
    }

    /** `resetForm` */
    method ResetForm()
      modifies this
      ensures name == "" && editing.None? && !showModal
    {
      name, editing, showModal := "", None, false;
    }

    /** `handleEdit` */
    method HandleEdit(s: StoreView)
      modifies this
      ensures editing == Some(s) && name == s.name && showModal
    {
      editing := Some(s);
      name := s.name;
      showModal := true;
    }

    /** `handleDelete`: the store is removed once the user confirms and the call succeeds. */
    method HandleDelete(ops: ListState<StoreView>, id: Id, confirmed: bool, response: ApiResult<()>)
      modifies ops`items
      ensures ops.items == if confirmed && response.Ok? then Removed(old(ops.items), ops.key, id) else old(ops.items)
    {
      if confirmed {
        var _ := ops.Delete(id, response);
      }
    }

    /** `handleSubmit`: a no-op for a blank name; otherwise update the store being edited or
        create one, and reset the form once the call succeeds. */
    method HandleSubmit(ops: ListState<StoreView>, response: ApiResult<StoreView>)
      returns (sent: Option<Submission<string>>)
      modifies this, ops`items
      ensures !SubmitAllowed(old(name)) ==>
        sent.None? && name == old(name) && editing == old(editing) && showModal == old(showModal)
        && ops.items == old(ops.items)
      ensures SubmitAllowed(old(name)) && old(editing).Some? ==>
        sent == Some(UpdateWith(old(editing).value.id, old(name)))
        && ops.items == (if response.Ok? then Replaced(old(ops.items), ops.key, old(editing).value.id, response.value)
                         else old(ops.items))
      ensures SubmitAllowed(old(name)) && old(editing).None? ==>
        sent == Some(CreateWith(old(name)))
        && ops.items == (if response.Ok? then old(ops.items) + [response.value] else old(ops.items))
      ensures SubmitAllowed(old(name)) && response.Ok? ==> name == "" && editing.None? && !showModal
      ensures response.Failed? ==> name == old(name) && editing == old(editing) && showModal == old(showModal)
    {
      if !SubmitAllowed(name) {
        return None;
      }
      var outcome;
      if editing.Some? {
        sent := Some(UpdateWith(editing.value.id, name));
        outcome := ops.Update(editing.value.id, response);
      } else {
        sent := Some(CreateWith(name));
        outcome := ops.Create(response);
      }
      if outcome.Ok? {
        ResetForm();
      }
    }
  }
}
