/** The login page: its form state and its submit handler. */
module Login {
  import opened Wrappers
  import opened Api
  import opened Session
  import Shell

  const LOGIN_FALLBACK := "Terjadi kesalahan."

  class AuthPage {
    var email: string
    var password: string
    var error: string
    var loading: bool

    constructor ()
      ensures email == "" && password == "" && error == "" && !loading
    {
      email, password, error, loading := "", "", "", false;
    }

    method SetEmail(v: string)
      modifies this
      ensures email == v && password == old(password) && error == old(error) && loading == old(loading)
    {
      email := v;
    }

    method SetPassword(v: string)
      modifies this
      ensures password == v && email == old(email) && error == old(error) && loading == old(loading)
    {
      password := v;
    }

    /** `handleSubmit` up to its `await`: returns the credentials it posts. */
    method StartSubmit() returns (req: LoginRequest)
      modifies this
      ensures loading && error == ""
      ensures email == old(email) && password == old(password)
      ensures req == LoginRequest(email, password)
    {
      loading := true;
      error := "";
      req := LoginRequest(email, password);
    }

    /**
     * `handleSubmit` after the login request settled. On success the
     * response is handed to the shell (`handoff`) and the page navigates
     * to "/" (`goHome`); on failure the error shows the server's message or
     * the default text and nothing is handed over. `loading` ends false.
     */
    method FinishSubmit(outcome: Outcome<AuthData>) returns (handoff: Option<AuthData>, goHome: bool)
      modifies this
      ensures !loading && email == old(email) && password == old(password)
      ensures outcome.Succeeded? ==> handoff == Some(outcome.value) && goHome && error == old(error)
      ensures outcome.Failed? ==> handoff == None && !goHome && error == MessageOr(outcome.error, LOGIN_FALLBACK)
    {
      match outcome {
        case Succeeded(data) =>
          handoff, goHome := Some(data), true;
        case Failed(err) =>
          error := MessageOr(err, LOGIN_FALLBACK);
          handoff, goHome := None, false;
      }
      loading := false;
    }
  }

  /**
   * A full login attempt against the shell: the form is filled in and
   * submitted, the request settles with `outcome`, a handed-over response
   * becomes the session, the persistence effect runs and the page is
   * reloaded. `session` is the session after the reload.
   */
  method SubmitLogin(saved: map<string, string>, email: string, password: string, outcome: Outcome<AuthData>)
    returns (sent: LoginRequest, shown: string, session: Option<AuthData>)
    ensures sent == LoginRequest(email, password)
    ensures outcome.Succeeded? ==> session == Some(outcome.value) && shown == ""
    ensures outcome.Failed? ==> session == Load(saved) && shown == MessageOr(outcome.error, LOGIN_FALLBACK)
  {
    var app := new Shell.App(saved);
    var page := new AuthPage();
    page.SetEmail(email);
    page.SetPassword(password);
    sent := page.StartSubmit();
    var handoff, goHome := page.FinishSubmit(outcome);
    if handoff.Some? {
      app.HandleLoginSuccess(handoff.value);
    }
    app.PersistEffect();
    LoadAfterPersist(saved, app.authData);
    var reloaded := new Shell.App(app.storage);
    shown := page.error;
    session := reloaded.authData;
  }

  /**
   * A login rejected with the server message "invalid credentials": the
   * page shows that message and, after a reload, the session is still the
   * one loaded from storage.
   */
  method RejectedLogin(saved: map<string, string>, email: string, password: string)
    returns (shown: string, session: Option<AuthData>)
    ensures shown == "invalid credentials"
    ensures session == Load(saved)
  {
    var rejection := HttpError(Some(ErrorResponse(Some(ErrorBody(Some("invalid credentials"))))));
    var sent;
    sent, shown, session := SubmitLogin(saved, email, password, Failed(rejection));
  }
}
