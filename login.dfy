/**
 * The login page's submit flow: the error cleared and `loading` set before the store's
 * `login` is called, the branch on its outcome, and `loading` cleared in `finally`.
 */
module Login {
  import opened Wrappers
  import Store
  import App

  const InvalidCredentials := "Invalid email or password"
  const LoginFailed := "Login failed. Please try again."

  /** How the awaited `login(email, password)` ended: with a boolean, or by throwing. */
  datatype LoginResult = Returned(success: bool) | Threw

  /** The page's form fields, error text and loading flag, and where it navigated to. */
  class LoginPage {
    var email: string
    var password: string
    var error: string
    var loading: bool
    var navigatedTo: Option<string>

    constructor ()
      ensures email == "" && password == "" && error == "" && !loading && navigatedTo.None?
    {
      email := "";
      password := "";
      error := "";
      loading := false;
      navigatedTo := None;
    }

    /** Typing into the two inputs. */
    method SetCredentials(email: string, password: string)
      modifies this`email, this`password
      ensures this.email == email && this.password == password
    {
      this.email := email;
      this.password := password;
    }

    /**
     * `handleSubmit` given the outcome of `login`: the error text and flag while the call
     * is pending, then the navigation home on success or the matching error otherwise,
     * and `loading` cleared in every case.
     */
    method HandleSubmit(result: LoginResult) returns (errorDuring: string, loadingDuring: bool)
      modifies this`error, this`loading, this`navigatedTo
      ensures errorDuring == "" && loadingDuring && !loading
      ensures result == Returned(true) ==> navigatedTo == Some(App.HomePath) && error == ""
      ensures result == Returned(false) ==> navigatedTo == old(navigatedTo) && error == InvalidCredentials
      ensures result.Threw? ==> navigatedTo == old(navigatedTo) && error == LoginFailed
    {
      error := "";
      loading := true;
      errorDuring, loadingDuring := error, loading;
      match result {
        case Returned(success) =>
          if success {
            navigatedTo := Some(App.HomePath);
          } else {
            error := InvalidCredentials;
          }
        case Threw =>
          error := LoginFailed;
      }
      loading := false;
    }
  }

  /**
   * Submitting the form against the store. The store's `login` returns a boolean and never
   * throws, so only the two `Returned` outcomes occur; on success the signed-in layout
   * renders the dashboard at the path the page navigated to.
   */
  method Submit(page: LoginPage, store: Store.AppStore) returns (ok: bool)
    modifies page`error, page`loading, page`navigatedTo, store`isAuthenticated, store`user, store.storage
    ensures ok == Store.ValidCredentials(page.email, page.password)
    ensures !page.loading
    ensures ok ==> page.navigatedTo == Some(App.HomePath) && page.error == ""
    ensures ok ==> App.Route(store.isAuthenticated, page.navigatedTo.value) == App.Render(App.Dashboard)
    ensures !ok ==> page.error == InvalidCredentials && page.navigatedTo == old(page.navigatedTo)
    ensures !ok ==> store.isAuthenticated == old(store.isAuthenticated) && store.user == old(store.user)
    ensures !ok ==> store.storage.items == old(store.storage.items)
  {
    ok := store.Login(page.email, page.password);
    var _, _ := page.HandleSubmit(Returned(ok));
    if ok {
      assert App.Routes[0] == (App.HomePath, App.Dashboard);
      App.SignedInRouting(App.HomePath);
    }
  }
}
