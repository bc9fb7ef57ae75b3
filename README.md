# Movie catalog client: admin panel, session and fetch views

A model of the control logic of a single-page movie catalog client
(`src/App.js`). The client lists movies, shows one movie with its
schedules, logs users in, and gives admins a panel to create and edit
movies and add schedules through a REST backend. Network calls,
rendering and styling are abstracted. What stays is modelled here:

- **Admin panel** (`AdminModel`, `AdminPanel`). `AdminModel` describes
  the panel's state cells as a value, with one function per handler:
  open the add, edit or schedule form, reset and close either form, type
  into a draft field, start and finish the list fetch, start and finish
  either submit. `AdminPanel.AdminPage` is the component as a class. Its
  fields are the state cells. Each handler is a method that updates the
  fields one after another, and each method is proved to produce exactly
  the state the matching `AdminModel` function gives. `Step` and `Run`
  apply any sequence of handler runs. The main invariant is that the two
  forms are never open together; it is proved over every such sequence.
- **Session** (`Session`, `Shell`). The login response is mirrored into
  browser storage under `"authData"` by an effect. On startup it is read
  back: a missing, empty or unparseable value loads as no session. A
  serialise/parse pair is proved to round-trip, so a reload after the
  effect restores the same session. The `/admin` route shows the admin
  page exactly when the session user's role is `"admin"`. The navbar
  offers the admin link under the same condition.
- **Login page** (`Login`). The submit handler: `loading` rises, the
  error clears, the credentials are posted. On success the response goes
  to the shell and the page navigates home. On failure the error uses the
  server's message, with a fallback.
- **Fetch views** (`FetchViews`). The catalog and detail pages fetch once
  on mount; the detail page also fetches on every id change. Rendering
  checks loading first, then a non-empty error, then a null movie for
  "not found", then the content.

The three submit handlers (movie, schedule and login) report a failure by
the same rule, `err.response?.data?.message || default`, modelled by
`Api.MessageOr`: the server's message when present and non-empty, the
handler's own text otherwise. The three read handlers (the admin list
fetch, the catalog fetch and the detail fetch) ignore the error object and
set a fixed text of their own.

Three behaviours of the code are easy to miss; the model follows the code:

- A success message is cleared only when the next submit starts.
  Opening, closing or editing a form, or refetching, leaves it in place
  (`AdminModel.MessageKeptUntilNextSubmit`).
- The detail page does not discard late responses. A response for an
  earlier movie id that arrives last is the one shown
  (`FetchViews.LateResponseOverwrites`).
- Changing the movie id does not reset `loading` or `error`. An earlier
  failure stays on screen after navigating to a movie that loads
  (`FetchViews.ErrorOutlivesNavigation`).

## Model

| member | source | states |
|---|---|---|
| `Api.ServerMessage` | src/App.js:80 | the optional chain `err.response?.data?.message` is present exactly when every link is present, and is then the message |
| `Api.MessageOr` | src/App.js:80 | the error text is the server's message when it is present and non-empty, otherwise the handler's default; with a non-empty default the text is never empty (same rule at lines 104 and 229) |
| `Api.Both` | src/App.js:36-39 | the combined list fetch succeeds exactly when both requests do, and then yields both results |
| `Catalog.WithField` | src/App.js:158-161 | a movie form input sets its own field to the typed value and leaves the id and the other fields unchanged |
| `AdminModel.OpenEditMovieForm` | src/App.js:110-115 | edit mode on, the draft is exactly the chosen movie, the movie form open and the schedule form closed; lists, feedback and schedule draft untouched |
| `AdminModel.OpenAddMovieForm` | src/App.js:117-122 | edit mode off, the draft is the empty record with a null id, the movie form open and the schedule form closed; nothing else changes |
| `AdminModel.OpenScheduleForm` | src/App.js:144 | the schedule form opens and the movie form closes; the edit mode and both drafts are kept |
| `AdminModel.ResetAndCloseMovieForm` | src/App.js:124-128 | the movie form closes, edit mode goes off and the draft is reset; the schedule form and its fields are untouched |
| `AdminModel.ResetAndCloseScheduleForm` | src/App.js:130-135 | the schedule form closes and all three schedule fields become empty; the movie form, its mode and draft are untouched |
| `AdminModel.EditMovieDraft` | src/App.js:158-161 | typing into a movie input changes that draft field only, and nothing else in the state |
| `AdminModel.EditScheduleDraft` | src/App.js:175-177 | typing into a schedule input changes that field only; forms, lists and feedback untouched |
| `AdminModel.FetchStarted` | src/App.js:33-34 | a fetch raises `loading` and changes nothing else |
| `AdminModel.FetchFinished` | src/App.js:35-46 | after both requests settle `loading` is false; both succeeded: the lists are replaced and the error kept; otherwise the lists are kept and the fixed fetch error shown |
| `AdminModel.SubmitStarted` | src/App.js:55-57 | starting either submit sets `loading` and clears both message and error; forms and drafts untouched |
| `AdminModel.PayloadOf` | src/App.js:59-64 | the movie payload carries the draft's title, duration, synopsis and poster URL |
| `AdminModel.MovieRequestFor` | src/App.js:59-76 | the movie request is an update exactly in edit mode, addressed by the draft's id; it carries the draft's payload and the header `AdminModel.Bearer` builds from the session token (`Bearer ${token}`, line 65) |
| `AdminModel.ScheduleRequestFor` | src/App.js:91-99 | the schedule request carries the three schedule field texts and the header `AdminModel.Bearer` builds from the session token (line 98) |
| `AdminModel.MovieSubmitFinished` | src/App.js:67-83 | `loading` ends false; on success the message names the request's mode ("diperbarui" for update, "ditambahkan" for create) and the movie form is closed with edit mode off and the draft reset; on failure the error follows the fallback rule and both forms and drafts are unchanged |
| `AdminModel.ScheduleSubmitFinished` | src/App.js:96-107 | `loading` ends false; on success the fixed message is shown and the schedule form is closed with its fields empty; on failure the error follows the fallback rule and both forms and drafts are unchanged |
| `AdminModel.StepKeepsFormsExclusive` | src/App.js:110-135 | no single handler run opens both forms when at most one was open |
| `AdminModel.RunKeepsFormsExclusive` | src/App.js:110-122 | no sequence of handler runs from a state with at most one form open ever opens both |
| `AdminModel.FormsNeverBothOpen` | src/App.js:20-21 | both forms start closed, so in every state reachable from mount at most one form is open |
| `AdminModel.OpenAddThenCancel` | src/App.js:117-128 | opening the create form and cancelling leaves both forms closed, edit mode off and the draft empty, with everything else as before |
| `AdminModel.EditThenSubmitSendsMovie` | src/App.js:59-70 | submitting an unmodified edit form sends an update to the movie's id whose payload is exactly that movie's editable fields |
| `AdminModel.PayloadIgnoresId` | src/App.js:59-64 | two drafts produce the same payload exactly when they agree on every editable field, whatever their ids |
| `AdminModel.ResubmitAfterFailure` | src/App.js:79-83 | after a failed movie submit the draft and mode are intact, so submitting again sends the same request |
| `AdminModel.MessageKeptUntilNextSubmit` | src/App.js:53-108 | handler runs other than the submit handlers never change the shown message |
| `AdminPanel.AdminPage.constructor` | src/App.js:13-30 | the page mounts in the initial state (loading, no lists, both forms closed, empty drafts) and keeps the session token |
| `AdminPanel.AdminPage.OpenEditMovieForm` | src/App.js:110-115 | the fields move exactly as `AdminModel.OpenEditMovieForm` says; the forms stay exclusive |
| `AdminPanel.AdminPage.OpenAddMovieForm` | src/App.js:117-122 | the fields move exactly as `AdminModel.OpenAddMovieForm` says |
| `AdminPanel.AdminPage.OpenScheduleForm` | src/App.js:144 | the fields move exactly as `AdminModel.OpenScheduleForm` says |
| `AdminPanel.AdminPage.ResetAndCloseMovieForm` | src/App.js:124-128 | the fields move exactly as `AdminModel.ResetAndCloseMovieForm` says |
| `AdminPanel.AdminPage.ResetAndCloseScheduleForm` | src/App.js:130-135 | the fields move exactly as `AdminModel.ResetAndCloseScheduleForm` says |
| `AdminPanel.AdminPage.EditMovieField` | src/App.js:158-161 | the fields move exactly as `AdminModel.EditMovieDraft` says |
| `AdminPanel.AdminPage.EditScheduleField` | src/App.js:175-177 | the fields move exactly as `AdminModel.EditScheduleDraft` says |
| `AdminPanel.AdminPage.StartFetch` | src/App.js:33-34 | the fields move exactly as `AdminModel.FetchStarted` says |
| `AdminPanel.AdminPage.FinishFetch` | src/App.js:35-46 | the fields move exactly as `AdminModel.FetchFinished` says |
| `AdminPanel.AdminPage.StartMovieSubmit` | src/App.js:53-65 | the fields move as `AdminModel.SubmitStarted` says, and the request returned is `AdminModel.MovieRequestFor` of the state before the call |
| `AdminPanel.AdminPage.FinishMovieSubmit` | src/App.js:67-83 | the fields move exactly as `AdminModel.MovieSubmitFinished` says; a refetch is requested exactly on success |
| `AdminPanel.AdminPage.StartScheduleSubmit` | src/App.js:86-99 | the fields move as `AdminModel.SubmitStarted` says, and the request returned is `AdminModel.ScheduleRequestFor` of the state before the call |
| `AdminPanel.AdminPage.FinishScheduleSubmit` | src/App.js:100-107 | the fields move exactly as `AdminModel.ScheduleSubmitFinished` says; a refetch is requested exactly on success |
| `Session.Expect` | src/App.js:309 | consuming a literal succeeds exactly when the text starts with it, and returns what follows |
| `Session.UnquoteEscape` | src/App.js:309-310 | reading back an escaped string body and its closing quote yields the original string and the text after it |
| `Session.ParseSerialize` | src/App.js:309-310 | `Session.Parse` (standing in for `JSON.parse`) applied to the text `Session.Serialize` writes (standing in for `JSON.stringify`) yields exactly the session that was written |
| `Session.Load` | src/App.js:309 | with nothing saved under "authData" there is no session; otherwise the session is the parse of the saved text, absent when it does not parse |
| `Session.Persist` | src/App.js:310 | a session is written under "authData", no session removes the key, and every other key keeps its value |
| `Session.LoadAfterPersist` | src/App.js:309-310 | loading after the persistence effect gives back exactly the session that was persisted, including none |
| `Session.AdminRoute` | src/App.js:314 | the admin page is rendered exactly when `Session.IsAdmin` holds (`authData?.user?.role === 'admin'`: a session, with a user, whose role is "admin"), and then gets that user and the session token; otherwise access is denied |
| `Session.Navbar` | src/App.js:208 | the signed-in section is shown exactly when the session has a user, with that user's email |
| `Session.AdminLinkMatchesGate` | src/App.js:208 | the navbar shows the admin link exactly when the admin route would render the admin page |
| `Session.NoAdminWithoutAdminRole` | src/App.js:314 | no session, no user or a role other than "admin" each give the access-denied view |
| `Shell.App.constructor` | src/App.js:309 | on startup the session is what `Session.Load` reads from storage |
| `Shell.App.PersistEffect` | src/App.js:310 | storage becomes `Session.Persist` of its old value and the session; the session is unchanged |
| `Shell.App.HandleLoginSuccess` | src/App.js:311 | the session becomes the login response; storage is untouched until the effect runs |
| `Shell.App.HandleLogout` | src/App.js:312 | the session becomes none; storage is untouched until the effect runs |
| `Shell.App.OpenAdminRoute` | src/App.js:314 | an admin page exists exactly for an admin session; it is new, holds the session token and starts in the initial state |
| `Shell.LoginSurvivesReload` | src/App.js:309-311 | a login followed by the effect and a reload restores exactly the logged-in session |
| `Shell.LogoutSurvivesReload` | src/App.js:309-312 | a logout followed by the effect and a reload leaves no session |
| `Login.AuthPage.constructor` | src/App.js:213-216 | the login form starts with empty fields, no error and not loading |
| `Login.AuthPage.SetEmail` | src/App.js:235 | the email input changes the email only |
| `Login.AuthPage.SetPassword` | src/App.js:235 | the password input changes the password only |
| `Login.AuthPage.StartSubmit` | src/App.js:218-223 | submitting sets `loading`, clears the error and posts exactly the typed email and password |
| `Login.AuthPage.FinishSubmit` | src/App.js:224-232 | `loading` ends false; on success the response is handed to the shell and the page goes home; on failure nothing is handed over and the error follows the fallback rule |
| `Login.SubmitLogin` | src/App.js:218-233 | a full login attempt against the shell posts the typed credentials; on success the session after the effect and a reload is the response and no error shows; on failure the session is the one loaded before and the error follows the fallback rule |
| `Login.RejectedLogin` | src/App.js:224-232 | a login rejected with "invalid credentials" shows that text, and after the effect and a reload the session is still the one loaded from storage |
| `FetchViews.ListRender` | src/App.js:256-259 | the catalog shows loading exactly while loading, else the error exactly when it is non-empty, else the grid of exactly the fetched movies |
| `FetchViews.DetailRender` | src/App.js:283-286 | the detail page shows loading exactly while loading, else the error exactly when non-empty, else "not found" exactly for a null movie, else that movie |
| `FetchViews.MovieList.constructor` | src/App.js:240-242 | the catalog mounts with no movies, loading, and no error |
| `FetchViews.MovieList.FetchResolved` | src/App.js:244-253 | `loading` ends false; success replaces the movies; failure keeps them and sets the fixed error |
| `FetchViews.CatalogAfterMount` | src/App.js:243-259 | after the mount request the catalog shows exactly the fetched movies, or the fixed error |
| `FetchViews.MovieDetail.constructor` | src/App.js:265-269 | the detail page mounts with its id, no movie, loading, no error and no selection |
| `FetchViews.MovieDetail.StartFetch` | src/App.js:270-282 | the effect requests the current id |
| `FetchViews.MovieDetail.ChangeId` | src/App.js:265 | a new route id changes only the id; movie, loading, error and selection are kept |
| `FetchViews.MovieDetail.FetchResolved` | src/App.js:271-280 | `loading` ends false; success replaces the movie (null included) and keeps the error; failure keeps the movie and sets the fixed error |
| `FetchViews.MovieDetail.SelectSchedule` | src/App.js:297 | clicking a schedule makes it the selection and changes nothing else |
| `FetchViews.LateResponseOverwrites` | src/App.js:270-282 | the requests go out for ids "1" then "2"; when the response to "1" settles last, movie 1 is shown under id "2" |
| `FetchViews.ErrorOutlivesNavigation` | src/App.js:270-284 | the request for "1" fails, the request for "2" succeeds, and the error is still shown |
| `FetchViews.SelectionHighlights` | src/App.js:297 | after a click on a schedule, `FetchViews.MovieDetail.IsSelected` (`selectedSchedule?.id === schedule.id`) holds for that schedule, and for another schedule exactly when its id equals the selected one's |

## Left out

- HTTP calls. Every request's result is an input to the model (an `Outcome`, or a `Fetched` for reads whose failure handler ignores the error). Base URLs, headers other than the bearer token, and status codes are not modelled.
- Rendering, JSX markup and the style sheet. Only the decisions they contain are kept: the render order, the admin link and gate, and the schedule highlight.
- Concurrency. The un-awaited `fetchData()` after a successful submit lets the submit's `finally` clear `loading` while the refetch is still in flight. Here the refetch is a later `StartFetch`/`FinishFetch` pair instead, and the submit only reports that it asks for one. `Promise.all` is modelled as `Api.Both`, without its timing.
- The submit buttons' `disabled={loading}` attribute and the inputs' `required` attribute are browser behaviour. The handlers are modelled without these guards, so the model admits submits that the page prevents.
- `AdminModel.ScheduleRequestFor`: does not model `parseInt` and `new Date(...).toISOString()` on the three fields, because they are locale- and engine-dependent foreign conversions. The request carries the raw texts. The exception that `toISOString` throws on an invalid date is not modelled either; the `required` datetime input keeps that value from being empty.
- `Session.Serialize`/`Session.Parse` stand in for `JSON.stringify`/`JSON.parse` over the session's shape: `{"user":{"email":…,"role":…},"accessToken":…}` or `"user":null`. Only `"` and `\` are escaped. User fields other than email and role are not kept.
- `Session.Load`: `Session.Parse` accepts only the exact layout `Session.Serialize` writes. Any other saved text loads as none, where `JSON.parse` would keep the parsed value. That covers JSON that is not a session object (a number, `{}`). It also covers session JSON in another layout: whitespace, another key order, or extra user fields such as the user id a login response carries. `localStorage` throwing is not modelled.
- `Shell.App.constructor`: storage is left as it was found. The effect's run right after mount is a separate `Shell.App.PersistEffect` call; that run is what removes an empty or unparseable saved value at startup.
- Field values of movies are text, since JavaScript does not type them; the numeric duration the backend returns is not distinguished from the form's text.
- `react-router` path matching and `navigate` are library internals. The only parts modelled are the role check for `/admin` and the "go home" flag after a login.
- The admin page's movie list rendering (`loading ? … : movies.map`), the poster placeholder URL and the schedule time and price formatting are rendering only.
