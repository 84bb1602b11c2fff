/**
 * The application shell: the shared lists of stores, medicines and billings and the
 * operations that reconcile them with the API's answers, logout, and the choice of
 * what to render.
 */
module ClientApp {
  import opened Wrappers
  import opened Ids
  import opened Text
  import opened Seqs
  import opened ClientTypes

  /** A list held in React state, updated after each API call. */
  class ListState<T(==,!new)> {
    var items: seq<T>
    const key: T -> Id

    constructor(key: T -> Id)
      ensures items == [] && this.key == key
    {
      items := [];
      this.key := key;
    }

    /** `create`: the returned record is appended; a failed call leaves the list and rethrows. */
    method Create(response: ApiResult<T>) returns (outcome: ApiResult<T>)
      modifies this`items
      ensures response.Ok? ==> items == old(items) + [response.value]
      ensures response.Failed? ==> items == old(items)
      ensures outcome == response
    {
      if response.Ok? {
        items := items + [response.value];
      }
      outcome := response;
    }

    /** `update`: every element with that id is replaced by the returned record. */
    method Update(id: Id, response: ApiResult<T>) returns (outcome: ApiResult<T>)
      modifies this`items
      ensures response.Ok? ==> items == Replaced(old(items), key, id, response.value)
      ensures response.Failed? ==> items == old(items)
      ensures outcome == response
    {
      if response.Ok? {
        items := Replaced(items, key, id, response.value);
      }
      outcome := response;
    }

    /** `delete`: the elements with that id are dropped, the others keep their order. */
    method Delete(id: Id, response: ApiResult<()>) returns (outcome: ApiResult<()>)
      modifies this`items
      ensures response.Ok? ==> items == Removed(old(items), key, id)
      ensures response.Failed? ==> items == old(items)
      ensures outcome == response
    {
      if response.Ok? {
        items := Removed(items, key, id);
      }
      outcome := response;
    }
  }

  /** The component `renderActiveComponent` picks. */
  datatype View = StoresView | MedicinesView | PrescriptionsView | UsersView

  /** What the application shows. */
  datatype Screen = LoginScreen | LoadingScreen | ErrorScreen(message: string) | MainScreen(view: View)

  /** `renderActiveComponent`: each known tab its own view; anything else the stores view. */
  function ViewFor(tab: string): (v: View)
    ensures tab == "medicines" <==> v == MedicinesView
    ensures tab == "prescriptions" <==> v == PrescriptionsView
    ensures tab == "users" <==> v == UsersView
    ensures v == StoresView <==> tab !in {"medicines", "prescriptions", "users"}
  {
    match tab
    case "stores" => StoresView
    case "medicines" => MedicinesView
    case "prescriptions" => PrescriptionsView
    case "users" => UsersView
    case _ => StoresView
  }

  const LOAD_FAILED := "Failed to load data. Please make sure the backend server is running on port 3001."

  class App {
    var token: Option<string>
    var activeTab: string
    var loading: bool
    var error: Option<string>
    /** The signed-in user as `/me` describes it, which decides the admin-only controls. */
    var currentUser: Option<UserView>
    const stores: ListState<StoreView>
    const medicines: ListState<MedicineView>
    const billings: ListState<BillingView>

    /** The initial state, with the token read from storage. */
    constructor(storedToken: Option<string>)
      ensures token == storedToken && activeTab == "stores" && loading && error.None? && currentUser.None?
      ensures fresh(stores) && fresh(medicines) && fresh(billings)
      ensures stores.items == [] && medicines.items == [] && billings.items == []
    {
      token := storedToken;
      activeTab := "stores";
      loading := true;
      error := None;
      currentUser := None;
      stores := new ListState(StoreKey);
      medicines := new ListState(MedicineKey);
      billings := new ListState(BillingKey);
    }

    /** Without a token the login form, then the loading and error screens, then the tab. */
    function Screen(): (s: Screen)
      reads this
      ensures s == LoginScreen <==> !Truthy(token)
      ensures s.MainScreen? <==> Truthy(token) && !loading && !Truthy(error)
      ensures s.MainScreen? ==> s.view == ViewFor(activeTab)
    {
      if !Truthy(token) then LoginScreen
      else if loading then LoadingScreen
      else if Truthy(error) then ErrorScreen(error.value)
      else MainScreen(ViewFor(activeTab))
    }

    /** `loadAllData`: the three lists on success, the error message on failure; either way
        loading ends. `fetched` is the outcome of the three parallel requests. */
    method LoadAllData(fetched: ApiResult<(seq<StoreView>, seq<MedicineView>, seq<BillingView>)>)
      modifies this`loading, this`error, stores`items, medicines`items, billings`items
      ensures !loading
      ensures fetched.Ok? ==> error.None? && stores.items == fetched.value.0
                              && medicines.items == fetched.value.1 && billings.items == fetched.value.2
      ensures fetched.Failed? ==> error == Some(LOAD_FAILED) && stores.items == old(stores.items)
                                  && medicines.items == old(medicines.items) && billings.items == old(billings.items)
      ensures Truthy(token) ==> Screen() == if fetched.Ok? then MainScreen(ViewFor(activeTab)) else ErrorScreen(LOAD_FAILED)
    {
      loading := true;
      error := None;
      if fetched.Ok? {
        stores.items := fetched.value.0;
        medicines.items := fetched.value.1;
        billings.items := fetched.value.2;
      } else {
        error := Some(LOAD_FAILED);
      }
      loading := false;
    }

    /** The effect run when the token changes. With a token, `fetchUser` sets the current
        user from `/me` (a failure is only logged and keeps the old one) and everything is
        loaded; without one, loading just ends, which leaves the login form. `me` is the
        outcome of the `/me` request, `fetched` that of the three list requests. */
    method OnTokenChange(me: ApiResult<UserView>,
                         fetched: ApiResult<(seq<StoreView>, seq<MedicineView>, seq<BillingView>)>)
      modifies this`loading, this`error, this`currentUser, stores`items, medicines`items, billings`items
      ensures !loading
      ensures Truthy(token) && me.Ok? ==> currentUser == Some(me.value)
      ensures !(Truthy(token) && me.Ok?) ==> currentUser == old(currentUser)
      ensures !Truthy(token) ==> error == old(error) && Screen() == LoginScreen
                                 && stores.items == old(stores.items) && medicines.items == old(medicines.items)
                                 && billings.items == old(billings.items)
      ensures Truthy(token) ==> Screen() == if fetched.Ok? then MainScreen(ViewFor(activeTab)) else ErrorScreen(LOAD_FAILED)
    {
      if Truthy(token) {
        FetchUser(me);
        LoadAllData(fetched);
      } else {
        loading := false;
      }
    }

    /** `fetchUser`: the user `/me` returns becomes the current user; a failure changes nothing. */
    method FetchUser(me: ApiResult<UserView>)
      modifies this`currentUser
      ensures me.Ok? ==> currentUser == Some(me.value)
      ensures me.Failed? ==> currentUser == old(currentUser)
    {
      if me.Ok? {
        currentUser := Some(me.value);
      }
    }

    /** `handleLogout`: the token is cleared, which brings back the login form. */
    method Logout()
      modifies this`token
      ensures token.None? && Screen() == LoginScreen
    {
      token := None;
    }
  }
}
