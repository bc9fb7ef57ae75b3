/**
 * The application shell: the session state cell, its mirror in the
 * browser's key-value storage, and the admin route built from it.
 */
module Shell {
  import opened Wrappers
  import opened Session
  import AdminModel
  import AdminPanel

  class App {
    /** The current session; None when logged out. */
    var authData: Option<AuthData>
    /** The browser's durable key-value storage. */
    var storage: map<string, string>

    /** Startup: the session is read from what storage holds. */
    constructor (saved: map<string, string>)
      ensures storage == saved && authData == Load(saved)
    {
      storage := saved;
      var text := if STORAGE_KEY in saved then saved[STORAGE_KEY] else "";
      authData := if text != "" then Parse(text) else None;
    }

    /**
     * The effect that runs once after mount and again after every change
     * of the session. Its run after mount is what removes an empty or
     * unparseable saved value at startup; the constructor leaves storage
     * as it found it.
     */
    method PersistEffect()
      modifies this
      ensures authData == old(authData)
      ensures storage == Persist(old(storage), authData)
    {
      if authData.Some? {
        storage := storage[STORAGE_KEY := Serialize(authData.value)];
      } else {
        storage := storage - {STORAGE_KEY};
      }
    }

    /** `handleLoginSuccess(data)`. */
    method HandleLoginSuccess(data: AuthData)
      modifies this
      ensures authData == Some(data) && storage == old(storage)
    {
      authData := Some(data);
    }

    /** `handleLogout()`. */
    method HandleLogout()
      modifies this
      ensures authData == None && storage == old(storage)
    {
      authData := None;
    }

    /**
     * Navigating to `/admin`: a fresh admin page holding the session's
     * token when the user is an admin, no page (access denied) otherwise.
     */
    method OpenAdminRoute() returns (page: AdminPanel.AdminPage?)
      ensures page != null <==> IsAdmin(authData)
      ensures page != null ==>
        && fresh(page) && page.Valid()
        && page.token == authData.value.accessToken
        && page.State() == AdminModel.INITIAL
    {
      match AdminRoute(authData)
      case AdminPanel(_, token) =>
        page := new AdminPanel.AdminPage(token);
      case AccessDenied =>
        page := null;
    }
  }

  /** Logging in, letting the effect run and reloading the page restores the session. */
  method LoginSurvivesReload(saved: map<string, string>, data: AuthData) returns (restored: Option<AuthData>)
    ensures restored == Some(data)
  {
    var app := new App(saved);
    app.HandleLoginSuccess(data);
    app.PersistEffect();
    LoadAfterPersist(saved, Some(data));
    var reloaded := new App(app.storage);
    restored := reloaded.authData;
  }

  /** Logging out, letting the effect run and reloading the page leaves no session. */
  method LogoutSurvivesReload(saved: map<string, string>) returns (restored: Option<AuthData>)
    ensures restored == None
  {
    var app := new App(saved);
    app.HandleLogout();
    app.PersistEffect();
    LoadAfterPersist(saved, None);
    var reloaded := new App(app.storage);
    restored := reloaded.authData;
  }
}
