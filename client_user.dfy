/**
 * The user view: store names for a user's store reference, the search filter, and the
 * create, update, delete and edit handlers over the view's own list of users.
 */
module ClientUser {
  import opened Wrappers
  import opened Ids
  import opened Text
  import opened Seqs
  import opened ClientTypes
  import opened UserModel
  import UserRoutes

  /** The position of the first store with that id, or `|stores|` when there is none. */
  function FirstStoreIndex(stores: seq<StoreView>, id: Id): (i: nat)
    ensures i <= |stores|
    ensures forall j :: 0 <= j < i ==> stores[j].id != id
    ensures i < |stores| ==> stores[i].id == id
  {
    if |stores| == 0 then 0
    else if stores[0].id == id then 0
    else 1 + FirstStoreIndex(stores[1..], id)
  }

  /** `stores.find(s => s._id === id)` */
  function FindStore(stores: seq<StoreView>, id: Id): (r: Option<StoreView>)
    ensures r.None? <==> forall s :: s in stores ==> s.id != id
    ensures r.Some? ==> r.value in stores && r.value.id == id
    ensures r.Some? ==> exists i :: 0 <= i < |stores| && stores[i] == r.value
                                    && forall j :: 0 <= j < i ==> stores[j].id != id
  {
    var i := FirstStoreIndex(stores, id);
    if i < |stores| then Some(stores[i]) else None
  }

  /** `getStoreName`: an id is looked up among the loaded stores, a populated store
      gives its own name, and anything not found or unnamed is 'Unknown Store'. */
  function StoreNameOf(stores: seq<StoreView>, ref: StoreRef): (n: string)
    ensures n != ""
    ensures ref.NoStore? ==> n == "Unknown Store"
    ensures ref.Populated? ==> n == StoreName(ref.store)
    ensures ref.ById? ==> n == (if FindStore(stores, ref.storeId).Some? then StoreName(FindStore(stores, ref.storeId).value)
                                else "Unknown Store")
  {
    match ref
    case NoStore => "Unknown Store"
    case Populated(s) => StoreName(s)
    case ById(id) =>
      var found := FindStore(stores, id);
      if found.Some? then StoreName(found.value) else "Unknown Store"
  }

  /** The search: email or store name. */
  predicate UserMatches(stores: seq<StoreView>, term: string, u: UserView) {
    MatchesSearch(u.email, term) || MatchesSearch(StoreNameOf(stores, u.storeRef), term)
  }

  /** `filteredUsers` */
  function FilteredUsers(users: seq<UserView>, stores: seq<StoreView>, term: string): (r: seq<UserView>)
    ensures forall u :: u in r <==> u in users && UserMatches(stores, term, u)
  {
    Filter((u: UserView) => UserMatches(stores, term, u), users)
  }

  /** An empty search shows every user, in order. */
  lemma EmptySearchShowsAllUsers(users: seq<UserView>, stores: seq<StoreView>)
    ensures FilteredUsers(users, stores, "") == users
  {
    forall u | u in users
      ensures UserMatches(stores, "", u)
    {
      EmptySearchMatches(u.email);
    }
    FilterAll((u: UserView) => UserMatches(stores, "", u), users);
  }

  /** The body `handleCreateUser` sends: always the plain user type. */
  function CreateBody(email: string, password: string, storeId: Id): (b: UserRoutes.UserBody)
    ensures CastRole(b.userType) == Some(Regular)
    ensures b.email == Some(email) && b.pwd == Some(password) && b.storeId == Some(storeId)
  {
    UserRoutes.UserBody(Some(email), Some(password), Some("user"), Some(storeId))
  }

  /** The body `handleUpdateUser` sends: an empty password is left out, no type is sent. */
  function UpdateBody(email: string, password: string, storeId: Id): (b: UserRoutes.UserBody)
    ensures Truthy(b.pwd) <==> password != ""
    ensures !Truthy(b.userType)
    ensures b.email == Some(email) && b.storeId == Some(storeId)
  {
    UserRoutes.UserBody(Some(email), if password == "" then None else Some(password), None, Some(storeId))
  }

  /** A create the view lets through has every field the server asks for, and makes a
      regular user. */
  lemma CreateBodyIsComplete(email: string, password: string, storeId: Id)
    requires !IsBlank(email) && !IsBlank(password) && storeId != ""
    ensures !UserRoutes.FieldsMissing(CreateBody(email, password, storeId))
    ensures CastRole(CreateBody(email, password, storeId).userType) == Some(Regular)
  {
    assert email != "" && password != "";
  }

  /** An update with the password field left empty keeps the stored password and role,
      and always merges. */
  lemma UpdateBodyKeepsPassword(u: UserDoc, email: string, password: string, storeId: Id)
    requires email != "" && storeId != ""
    ensures UserRoutes.MergeUser(u, UpdateBody(email, password, storeId)).Some?
    ensures var m := UserRoutes.MergeUser(u, UpdateBody(email, password, storeId)).value;
      && m.pwd == (if password == "" then u.pwd else password)
      && m.role == u.role && m.email == NormalizeEmail(email) && m.storeId == Some(storeId)
  {
  }

  const FIELDS_REQUIRED := "Please fill in all required fields"

  /** The store id `handleEditClick` reads from a user's store reference. */
  function RefStoreId(ref: StoreRef): Id
    requires !ref.NoStore?
  {
    if ref.ById? then ref.storeId else ref.store.id
  }

  /** The create form's guard: every field must be filled in. */
  predicate CreateFormIncomplete(email: string, password: string, storeId: Id)
    ensures !CreateFormIncomplete(email, password, storeId) ==> email != "" && password != "" && storeId != ""
  {
    IsBlank(email) || IsBlank(password) || storeId == ""
  }

  class UserEditor {
    var users: seq<UserView>
    var email: string
    var password: string
    var storeId: Id
    var editing: Option<UserView>
    var showModal: bool
    var error: Option<string>

    /** The state once the initial fetch has answered. */
    constructor(fetched: ApiResult<seq<UserView>>)
      ensures users == (if fetched.Ok? then fetched.value else [])
      ensures error == (if fetched.Ok? then None else Some("Failed to fetch users"))
      ensures email == "" && password == "" && storeId == "" && editing.None? && !showModal
    {
      users := if fetched.Ok? then fetched.value else [];
      error := if fetched.Ok? then None else Some("Failed to fetch users");
      email, password, storeId := "", "", "";
      editing, showModal := None, false;
    }

    /** `resetForm` */
    method ResetForm()
      modifies this`email, this`password, this`storeId, this`editing, this`showModal, this`error
      ensures email == "" && password == "" && storeId == "" && editing.None? && !showModal && error.None?
    {
      email, password, storeId := "", "", "";
      editing, showModal, error := None, false, None;
    }

    /** `handleCreateUser`: a blank field only sets the error; otherwise the user is created,
        appended and the form reset, or the failure is reported. */
    method HandleCreateUser(response: ApiResult<UserView>) returns (sent: Option<UserRoutes.UserBody>)
      modifies this
      ensures CreateFormIncomplete(old(email), old(password), old(storeId)) ==>
        sent.None? && error == Some(FIELDS_REQUIRED) && users == old(users)
        && email == old(email) && password == old(password) && storeId == old(storeId)
        && editing == old(editing) && showModal == old(showModal)
      ensures !CreateFormIncomplete(old(email), old(password), old(storeId)) ==>
        sent == Some(CreateBody(old(email), old(password), old(storeId)))
      ensures sent.Some? && response.Ok? ==>
        users == old(users) + [response.value] && email == "" && password == "" && storeId == ""
        && editing.None? && !showModal && error.None?
      ensures sent.Some? && response.Failed? ==>
        users == old(users) && error == Some("Failed to create user")
        && email == old(email) && password == old(password) && storeId == old(storeId)
        && editing == old(editing) && showModal == old(showModal)
    {
      if CreateFormIncomplete(email, password, storeId) {
        error := Some(FIELDS_REQUIRED);
        return None;
      }
      sent := Some(CreateBody(email, password, storeId));
      if response.Ok? {
        users := users + [response.value];
        ResetForm();
      } else {
        error := Some("Failed to create user");
      }
    }

    /** `handleUpdateUser`: needs a user being edited; the returned user replaces it. */
    method HandleUpdateUser(response: ApiResult<UserView>) returns (sent: Option<(Id, UserRoutes.UserBody)>)
      modifies this
      ensures old(editing).None? || IsBlank(old(email)) || old(storeId) == "" ==>
        sent.None? && error == Some(FIELDS_REQUIRED) && users == old(users)
        && email == old(email) && password == old(password) && storeId == old(storeId)
        && editing == old(editing) && showModal == old(showModal)
      ensures !(old(editing).None? || IsBlank(old(email)) || old(storeId) == "") ==>
        sent == Some((old(editing).value.id, UpdateBody(old(email), old(password), old(storeId))))
      ensures sent.Some? && response.Ok? ==>
        users == Replaced(old(users), UserKey, old(editing).value.id, response.value)
        && email == "" && password == "" && storeId == "" && editing.None? && !showModal && error.None?
      ensures sent.Some? && response.Failed? ==>
        users == old(users) && error == Some("Failed to update user")
        && email == old(email) && password == old(password) && storeId == old(storeId)
        && editing == old(editing) && showModal == old(showModal)
    {
      if editing.None? || IsBlank(email) || storeId == "" {
        error := Some(FIELDS_REQUIRED);
        return None;
      }
      var id := editing.value.id;
      sent := Some((id, UpdateBody(email, password, storeId)));
      if response.Ok? {
        users := Replaced(users, UserKey, id, response.value);
        ResetForm();
      } else {
        error := Some("Failed to update user");
      }
    }

    /** `handleDeleteUser`: after confirmation, the user is dropped or the failure reported. */
    method HandleDeleteUser(id: Id, confirmed: bool, response: ApiResult<()>)
      modifies this`users, this`error
      ensures users == if confirmed && response.Ok? then Removed(old(users), UserKey, id) else old(users)
      ensures error == if confirmed && response.Failed? then Some("Failed to delete user") else old(error)
    {
      if confirmed {
        if response.Ok? {
          users := Removed(users, UserKey, id);
        } else {
          error := Some("Failed to delete user");
        }
      }
    }

    /** `handleEditClick`: the form takes the user's email and store, with an empty password. */
    method HandleEditClick(u: UserView)
      requires !u.storeRef.NoStore?
      modifies this`email, this`password, this`storeId, this`editing, this`showModal, this`error
      ensures editing == Some(u) && email == u.email && password == "" && storeId == RefStoreId(u.storeRef)
      ensures showModal && error.None?
    {
      editing := Some(u);
      email := u.email;
      storeId := RefStoreId(u.storeRef);
      password := "";
      showModal := true;
      error := None;
    }
  }
}
