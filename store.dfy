/**
 * The session store `useStore`: the theme and sidebar preferences, the authentication
 * flag and the signed-in user, hydrated from local storage when the store is created.
 * Sign-in is checked against one fixed pair of credentials; the API client is not involved.
 */
module Store {
  import opened Wrappers
  import Js
  import Json
  import Browser

  datatype User = User(name: string, email: string)

  const AdminEmail := "admin@wildwave.com"
  const AdminPassword := "admin123"
  const AdminName := "Admin User"

  /** Storage keys written by the store. */
  const AuthKey := "isAuthenticated"
  const UserKey := "user"

  /** The only credentials `login` accepts. */
  predicate ValidCredentials(email: string, password: string) {
    email == AdminEmail && password == AdminPassword
  }

  /** `JSON.stringify(user)` for the object literal `{ name, email }`. */
  function SerializeUser(u: User): string {
    Json.Stringify(Json.Pair("name", u.name, "email", u.email))
  }

  const UserPrefix := "{\"name\":\""
  const UserMiddle := ",\"email\":\""

  /**
   * Reads a stored user back. This accepts the text `SerializeUser` writes; other text
   * (reordered members, white space, extra members) is read as no user.
   */
  function ParseUser(text: string): Option<User> {
    if !(UserPrefix <= text) then None
    else
      match Json.Unquote(text[|UserPrefix|..])
      case None => None
      case Some((name, r1)) =>
        if !(UserMiddle <= r1) then None
        else
          match Json.Unquote(r1[|UserMiddle|..])
          case None => None
          case Some((email, r2)) => if r2 == "}" then Some(User(name, email)) else None
  }

  /** `JSON.parse(localStorage.getItem('user') || 'null')`. */
  function HydrateUser(stored: Option<string>): Option<User> {
    var text := Js.OrMissing(stored, "null");
    if text == "null" then None else ParseUser(text)
  }

  /** `localStorage.getItem('isAuthenticated') === 'true'`. */
  function HydrateAuthenticated(stored: Option<string>): bool {
    stored == Some("true")
  }

  lemma QuoteMemberNames()
    ensures Json.Quote("name") == "\"name\"" && Json.Quote("email") == "\"email\""
  {
    Json.EscapePlain("name");
    Json.EscapePlain("email");
  }

  lemma SerializeUserMembers(u: User)
    ensures SerializeUser(u)
         == "{" + "\"name\"" + ":" + Json.Quote(u.name) + "," + "\"email\"" + ":" + Json.Quote(u.email) + "}"
  {
    Json.StringifyPair("name", u.name, "email", u.email);
    QuoteMemberNames();
  }

  /** The text `SerializeUser` writes, member by member. */
  lemma SerializeUserText(u: User)
    ensures SerializeUser(u)
         == UserPrefix + Json.Escape(u.name) + "\"" + UserMiddle + Json.Escape(u.email) + "\"" + "}"
  {
    SerializeUserMembers(u);
    var en, ee := Json.Escape(u.name), Json.Escape(u.email);
    assert Json.Quote(u.name) == "\"" + en + "\"" && Json.Quote(u.email) == "\"" + ee + "\"";
    UserTextShape(en, ee);
  }

  lemma UserTextShape(en: string, ee: string)
    ensures "{" + "\"name\"" + ":" + ("\"" + en + "\"") + "," + "\"email\"" + ":" + ("\"" + ee + "\"") + "}"
         == UserPrefix + en + "\"" + UserMiddle + ee + "\"" + "}"
  {
  }

  /** A user written by `login` reads back as the same user. */
  lemma ParseSerializedUser(u: User)
    ensures ParseUser(SerializeUser(u)) == Some(u)
  {
    SerializeUserText(u);
    ParseUserText(u.name, u.email);
  }

  lemma ParseUserText(name: string, email: string)
    ensures ParseUser(UserPrefix + Json.Escape(name) + "\"" + UserMiddle + Json.Escape(email) + "\"" + "}")
         == Some(User(name, email))
  {
    var en, ee := Json.Escape(name), Json.Escape(email);
    var tail := UserMiddle + ee + "\"" + "}";
    var text := UserPrefix + en + "\"" + tail;
    assert text == UserPrefix + en + "\"" + UserMiddle + ee + "\"" + "}";
    assert UserPrefix <= text;
    assert text[|UserPrefix|..] == en + "\"" + tail;
    Json.UnquoteEscape(name, tail);
    assert UserMiddle <= tail;
    assert tail[|UserMiddle|..] == ee + "\"" + "}";
    Json.UnquoteEscape(email, "}");
  }

  /** Hydration reads back the user that a successful login stored. */
  lemma HydrateStoredUser(u: User)
    ensures HydrateUser(Some(SerializeUser(u))) == Some(u)
  {
    SerializeUserText(u);
    assert SerializeUser(u)[0] == '{';
    ParseSerializedUser(u);
  }

  /** A missing or empty 'user' entry hydrates to no user. */
  lemma HydrateMissingUser(stored: Option<string>)
    requires stored.None? || stored.value == "" || stored.value == "null"
    ensures HydrateUser(stored).None?
  {
  }

  class AppStore {
    var darkMode: bool
    var sidebarCollapsed: bool
    var isAuthenticated: bool
    var user: Option<User>
    /** Whether the document element carries the `dark` class. */
    var darkClass: bool
    const storage: Browser.LocalStorage

    /** `create(...)`: the initial state, read from storage once. */
    constructor (storage: Browser.LocalStorage, darkClass: bool)
      ensures this.storage == storage && this.darkClass == darkClass
      ensures !darkMode && !sidebarCollapsed
      ensures isAuthenticated == HydrateAuthenticated(storage.GetItem(AuthKey))
      ensures user == HydrateUser(storage.GetItem(UserKey))
    {
      this.storage := storage;
      this.darkClass := darkClass;
      darkMode := false;
      sidebarCollapsed := false;
      isAuthenticated := storage.GetItem(AuthKey) == Some("true");
      user := HydrateUser(storage.GetItem(UserKey));
    }

    /** Flips the theme and sets the document's `dark` class to the new value. */
    method ToggleDarkMode()
      modifies this`darkMode, this`darkClass
      ensures darkMode == !old(darkMode) && darkClass == darkMode
      ensures sidebarCollapsed == old(sidebarCollapsed) && isAuthenticated == old(isAuthenticated)
      ensures user == old(user)
    {
      var newMode := !darkMode;
      darkClass := newMode;
      darkMode := newMode;
    }

    /** Flips the sidebar and nothing else. */
    method ToggleSidebar()
      modifies this`sidebarCollapsed
      ensures sidebarCollapsed == !old(sidebarCollapsed)
      ensures darkMode == old(darkMode) && darkClass == old(darkClass)
      ensures isAuthenticated == old(isAuthenticated) && user == old(user)
    {
      sidebarCollapsed := !sidebarCollapsed;
    }

    /**
     * Accepts exactly the fixed credentials. On success the flag and the user are set
     * and both are written to storage; otherwise nothing changes.
     */
    method Login(email: string, password: string) returns (ok: bool)
      modifies this`isAuthenticated, this`user, storage
      ensures ok == ValidCredentials(email, password)
      ensures ok ==> isAuthenticated && user == Some(User(AdminName, email))
      ensures ok ==>
                storage.items == old(storage.items)[AuthKey := "true"][UserKey := SerializeUser(User(AdminName, email))]
      ensures !ok ==> isAuthenticated == old(isAuthenticated) && user == old(user)
      ensures !ok ==> storage.items == old(storage.items)
    {
      if email == AdminEmail && password == AdminPassword {
        var u := User(AdminName, email);
        storage.SetItem(AuthKey, "true");
        storage.SetItem(UserKey, SerializeUser(u));
        isAuthenticated := true;
        user := Some(u);
        return true;
      }
      return false;
    }

    /** Signs out: removes the two session keys (the token key is left alone) and clears the state. */
    method Logout()
      modifies this`isAuthenticated, this`user, storage
      ensures !isAuthenticated && user.None?
      ensures storage.items == old(storage.items) - {AuthKey, UserKey}
    {
      storage.RemoveItem(AuthKey);
      storage.RemoveItem(UserKey);
      isAuthenticated := false;
      user := None;
    }
  }

  /** Two theme toggles restore the theme, and the document class follows it. */
  method ToggleDarkModeTwice(s: AppStore)
    modifies s
    ensures s.darkMode == old(s.darkMode) && s.darkClass == s.darkMode
    ensures s.sidebarCollapsed == old(s.sidebarCollapsed)
  {
    s.ToggleDarkMode();
    s.ToggleDarkMode();
  }

  /** A second logout changes nothing further, and the stored token survives both. */
  method LogoutTwice(s: AppStore)
    modifies s, s.storage
    ensures !s.isAuthenticated && s.user.None?
    ensures s.storage.items == old(s.storage.items) - {AuthKey, UserKey}
    ensures "authToken" in old(s.storage.items) ==> s.storage.items["authToken"] == old(s.storage.items)["authToken"]
    ensures s.darkMode == old(s.darkMode) && s.sidebarCollapsed == old(s.sidebarCollapsed)
  {
    s.Logout();
    ghost var once := s.storage.items;
    s.Logout();
    assert s.storage.items == once;
  }

  /** After a successful login, a store created afresh over the same storage is signed in as that user. */
  method ReloadAfterLogin(storage: Browser.LocalStorage, email: string, password: string)
    returns (ok: bool, reloaded: AppStore)
    modifies storage
    ensures ok == ValidCredentials(email, password)
    ensures ok ==> reloaded.isAuthenticated && reloaded.user == Some(User(AdminName, email))
  {
    var s := new AppStore(storage, false);
    ok := s.Login(email, password);
    reloaded := new AppStore(storage, false);
    if ok {
      HydrateStoredUser(User(AdminName, email));
    }
  }
}
