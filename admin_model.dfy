/**
 * The admin panel as a state machine over values: its state cells, one
 * function per handler, and the properties that hold over any sequence
 * of handler runs. The class AdminPanel.AdminPage is proved against it.
 */
module AdminModel {
  import opened Wrappers
  import opened Catalog
  import opened Api

  const MOVIE_UPDATED := "Film berhasil diperbarui!"
  const MOVIE_ADDED := "Film baru berhasil ditambahkan!"
  const MOVIE_SUBMIT_FALLBACK := "Terjadi kesalahan pada server."
  const SCHEDULE_ADDED := "Jadwal baru berhasil ditambahkan!"
  const SCHEDULE_SUBMIT_FALLBACK := "Gagal menambahkan jadwal."
  const FETCH_FAILED := "Gagal mengambil data dari server."

  /** The admin panel's state cells; "" stands for an empty message or error. */
  datatype AdminState = AdminState(
    movies: seq<Movie>,
    schedules: seq<Schedule>,
    loading: bool,
    error: string,
    message: string,
    showMovieForm: bool,
    showScheduleForm: bool,
    isEditingMovie: bool,
    currentMovie: Movie,
    scheduleMovieId: string,
    scheduleShowTime: string,
    schedulePrice: string)

  /** The state on mount, before the first fetch has settled. */
  const INITIAL := AdminState([], [], true, "", "", false, false, false, EMPTY_DRAFT, "", "", "")

  /** At most one of the two admin forms is open. */
  predicate FormsExclusive(s: AdminState) {
    !(s.showMovieForm && s.showScheduleForm)
  }

  predicate SameData(s: AdminState, r: AdminState) {
    r.movies == s.movies && r.schedules == s.schedules
  }

  predicate SameFeedback(s: AdminState, r: AdminState) {
    r.loading == s.loading && r.error == s.error && r.message == s.message
  }

  predicate SameMovieForm(s: AdminState, r: AdminState) {
    r.showMovieForm == s.showMovieForm && r.isEditingMovie == s.isEditingMovie && r.currentMovie == s.currentMovie
  }

  predicate SameScheduleDraft(s: AdminState, r: AdminState) {
    r.scheduleMovieId == s.scheduleMovieId && r.scheduleShowTime == s.scheduleShowTime && r.schedulePrice == s.schedulePrice
  }

  /** Both forms' visibility and both drafts are as they were. */
  predicate SameForms(s: AdminState, r: AdminState) {
    SameMovieForm(s, r) && r.showScheduleForm == s.showScheduleForm && SameScheduleDraft(s, r)
  }

  function ScheduleFieldOf(s: AdminState, f: ScheduleField): string {
    match f
    case MovieChoice => s.scheduleMovieId
    case ShowTime => s.scheduleShowTime
    case Price => s.schedulePrice
  }

  // ---------------------------------------------------------------------
  // Form handlers
  // ---------------------------------------------------------------------

  /** `openEditMovieForm(movie)`: the movie form opens in edit mode on a copy of `m`. */
  function OpenEditMovieForm(s: AdminState, m: Movie): (r: AdminState)
    ensures r.isEditingMovie && r.currentMovie == m
    ensures r.showMovieForm && !r.showScheduleForm
    ensures SameData(s, r) && SameFeedback(s, r) && SameScheduleDraft(s, r)
  {
    s.(isEditingMovie := true, currentMovie := m, showMovieForm := true, showScheduleForm := false)
  }

  /** `openAddMovieForm()`: the movie form opens in create mode on the empty draft. */
  function OpenAddMovieForm(s: AdminState): (r: AdminState)
    ensures !r.isEditingMovie && r.currentMovie == EMPTY_DRAFT && r.currentMovie.id.None?
    ensures r.showMovieForm && !r.showScheduleForm
    ensures SameData(s, r) && SameFeedback(s, r) && SameScheduleDraft(s, r)
  {
    s.(isEditingMovie := false, currentMovie := EMPTY_DRAFT, showMovieForm := true, showScheduleForm := false)
  }

  /**
   * The "add schedule" button: the schedule form opens and the movie form
   * closes; neither draft nor the edit mode is touched.
   */
  function OpenScheduleForm(s: AdminState): (r: AdminState)
    ensures r.showScheduleForm && !r.showMovieForm
    ensures r.isEditingMovie == s.isEditingMovie && r.currentMovie == s.currentMovie
    ensures SameData(s, r) && SameFeedback(s, r) && SameScheduleDraft(s, r)
  {
    s.(showScheduleForm := true, showMovieForm := false)
  }

  /** `resetAndCloseMovieForm()`: closes the movie form and discards its draft. */
  function ResetAndCloseMovieForm(s: AdminState): (r: AdminState)
    ensures !r.showMovieForm && !r.isEditingMovie && r.currentMovie == EMPTY_DRAFT
    ensures r.showScheduleForm == s.showScheduleForm && SameScheduleDraft(s, r)
    ensures SameData(s, r) && SameFeedback(s, r)
  {
    s.(showMovieForm := false, isEditingMovie := false, currentMovie := EMPTY_DRAFT)
  }

  /** `resetAndCloseScheduleForm()`: closes the schedule form and empties its three fields. */
  function ResetAndCloseScheduleForm(s: AdminState): (r: AdminState)
    ensures !r.showScheduleForm
    ensures forall f :: ScheduleFieldOf(r, f) == ""
    ensures SameMovieForm(s, r) && SameData(s, r) && SameFeedback(s, r)
  {
    s.(showScheduleForm := false, scheduleMovieId := "", scheduleShowTime := "", schedulePrice := "")
  }

  /** A movie form input's `onChange`: one draft field takes the typed value. */
  function EditMovieDraft(s: AdminState, f: MovieField, v: string): (r: AdminState)
    ensures FieldOf(r.currentMovie, f) == v && r.currentMovie.id == s.currentMovie.id
    ensures forall g :: g != f ==> FieldOf(r.currentMovie, g) == FieldOf(s.currentMovie, g)
    ensures r == s.(currentMovie := r.currentMovie)
  {
    s.(currentMovie := WithField(s.currentMovie, f, v))
  }

  /** A schedule form input's `onChange`: one schedule field takes the typed value. */
  function EditScheduleDraft(s: AdminState, f: ScheduleField, v: string): (r: AdminState)
    ensures ScheduleFieldOf(r, f) == v
    ensures forall g :: g != f ==> ScheduleFieldOf(r, g) == ScheduleFieldOf(s, g)
    ensures SameMovieForm(s, r) && r.showScheduleForm == s.showScheduleForm
    ensures SameData(s, r) && SameFeedback(s, r)
  {
    match f
    case MovieChoice => s.(scheduleMovieId := v)
    case ShowTime => s.(scheduleShowTime := v)
    case Price => s.(schedulePrice := v)
  }

  // ---------------------------------------------------------------------
  // Fetching the lists
  // ---------------------------------------------------------------------

  /** `fetchData()` before its requests settle. */
  function FetchStarted(s: AdminState): (r: AdminState)
    ensures r.loading && r.error == s.error && r.message == s.message
    ensures SameData(s, r) && SameForms(s, r)
  {
    s.(loading := true)
  }

  /**
   * `fetchData()` once both requests have settled: the lists are replaced
   * when both succeeded, otherwise the fixed fetch error is shown and the
   * old lists stay. An earlier error is not cleared by a success.
   */
  function FetchFinished(s: AdminState, movies: Fetched<seq<Movie>>, schedules: Fetched<seq<Schedule>>): (r: AdminState)
    ensures !r.loading && r.message == s.message && SameForms(s, r)
    ensures movies.Loaded? && schedules.Loaded? ==>
      r.movies == movies.data && r.schedules == schedules.data && r.error == s.error
    ensures !(movies.Loaded? && schedules.Loaded?) ==> SameData(s, r) && r.error == FETCH_FAILED
  {
    match Both(movies, schedules)
    case Loaded((ms, ss)) => s.(movies := ms, schedules := ss, loading := false)
    case FetchError => s.(error := FETCH_FAILED, loading := false)
  }

  // ---------------------------------------------------------------------
  // Submitting the forms
  // ---------------------------------------------------------------------

  /** The first three steps of either submit handler. */
  function SubmitStarted(s: AdminState): (r: AdminState)
    ensures r.loading && r.message == "" && r.error == ""
    ensures SameData(s, r) && SameForms(s, r)
  {
    s.(loading := true, message := "", error := "")
  }

  /** The fields of the draft that are sent; the draft's `id` is not among them. */
  function PayloadOf(m: Movie): (p: MoviePayload)
    ensures p.title == m.title && p.duration == m.duration
    ensures p.synopsis == m.synopsis && p.posterUrl == m.posterUrl
  {
    MoviePayload(m.title, m.duration, m.synopsis, m.posterUrl)
  }

  /** The bearer header built from the session token. */
  function Bearer(token: string): string {
    "Bearer " + token
  }

  /**
   * The request `handleMovieFormSubmit` sends: an update addressed by the
   * draft's `id` in edit mode, a create otherwise, both carrying the draft's
   * payload and the session's bearer token.
   */
  function MovieRequestFor(s: AdminState, token: string): (req: MovieRequest)
    ensures req.UpdateMovie? <==> s.isEditingMovie
    ensures req.UpdateMovie? ==> req.id == s.currentMovie.id
    ensures req.payload == PayloadOf(s.currentMovie)
    ensures req.authorization == Bearer(token)
  {
    if s.isEditingMovie then UpdateMovie(s.currentMovie.id, PayloadOf(s.currentMovie), Bearer(token))
    else CreateMovie(PayloadOf(s.currentMovie), Bearer(token))
  }

  /** The request `handleScheduleFormSubmit` sends, carrying the three schedule fields. */
  function ScheduleRequestFor(s: AdminState, token: string): (req: ScheduleRequest)
    ensures req.movieId == s.scheduleMovieId && req.showTime == s.scheduleShowTime && req.price == s.schedulePrice
    ensures req.authorization == Bearer(token)
  {
    CreateSchedule(s.scheduleMovieId, s.scheduleShowTime, s.schedulePrice, Bearer(token))
  }

  /** The success message of a movie submit, chosen by the mode the request was built in. */
  function MovieSavedMessage(req: MovieRequest): string {
    if req.UpdateMovie? then MOVIE_UPDATED else MOVIE_ADDED
  }

  /**
   * `handleMovieFormSubmit` after its request `req` settled. On success the
   * message names the mode and the movie form is reset and closed; on
   * failure the error shows the server's message or the handler's default
   * and both forms and drafts are left as they are. `loading` ends false.
   */
  function MovieSubmitFinished(s: AdminState, req: MovieRequest, outcome: Outcome<()>): (r: AdminState)
    ensures !r.loading && SameData(s, r)
    ensures outcome.Succeeded? ==>
      && r.message == (if req.UpdateMovie? then MOVIE_UPDATED else MOVIE_ADDED)
      && r.error == s.error
      && !r.showMovieForm && !r.isEditingMovie && r.currentMovie == EMPTY_DRAFT
      && r.showScheduleForm == s.showScheduleForm && SameScheduleDraft(s, r)
    ensures outcome.Failed? ==>
      && r.error == MessageOr(outcome.error, MOVIE_SUBMIT_FALLBACK)
      && r.message == s.message
      && SameForms(s, r)
  {
    var t :=
      if outcome.Succeeded? then ResetAndCloseMovieForm(s.(message := MovieSavedMessage(req)))
      else s.(error := MessageOr(outcome.error, MOVIE_SUBMIT_FALLBACK));
    t.(loading := false)
  }

  /**
   * `handleScheduleFormSubmit` after its request settled: on success the
   * fixed message and a reset, closed schedule form; on failure the error,
   * with both forms and drafts left as they are. `loading` ends false.
   */
  function ScheduleSubmitFinished(s: AdminState, outcome: Outcome<()>): (r: AdminState)
    ensures !r.loading && SameData(s, r)
    ensures outcome.Succeeded? ==>
      && r.message == SCHEDULE_ADDED && r.error == s.error
      && !r.showScheduleForm && (forall f :: ScheduleFieldOf(r, f) == "")
      && SameMovieForm(s, r)
    ensures outcome.Failed? ==>
      && r.error == MessageOr(outcome.error, SCHEDULE_SUBMIT_FALLBACK)
      && r.message == s.message
      && SameForms(s, r)
  {
    var t :=
      if outcome.Succeeded? then ResetAndCloseScheduleForm(s.(message := SCHEDULE_ADDED))
      else s.(error := MessageOr(outcome.error, SCHEDULE_SUBMIT_FALLBACK));
    t.(loading := false)
  }

  // ---------------------------------------------------------------------
  // Runs of handlers
  // ---------------------------------------------------------------------

  /** One handler run of the admin panel. */
  datatype AdminEvent =
    | OpenAdd
    | OpenEdit(movie: Movie)
    | OpenSchedule
    | CloseMovie
    | CloseSchedule
    | EditMovie(field: MovieField, text: string)
    | EditSchedule(scheduleField: ScheduleField, text: string)
    | StartFetch
    | FinishFetch(movies: Fetched<seq<Movie>>, schedules: Fetched<seq<Schedule>>)
    | StartMovieSubmit
    | FinishMovieSubmit(request: MovieRequest, outcome: Outcome<()>)
    | StartScheduleSubmit
    | FinishScheduleSubmit(scheduleOutcome: Outcome<()>)

  function Step(s: AdminState, e: AdminEvent): AdminState {
    match e
    case OpenAdd => OpenAddMovieForm(s)
    case OpenEdit(m) => OpenEditMovieForm(s, m)
    case OpenSchedule => OpenScheduleForm(s)
    case CloseMovie => ResetAndCloseMovieForm(s)
    case CloseSchedule => ResetAndCloseScheduleForm(s)
    case EditMovie(f, v) => EditMovieDraft(s, f, v)
    case EditSchedule(f, v) => EditScheduleDraft(s, f, v)
    case StartFetch => FetchStarted(s)
    case FinishFetch(ms, ss) => FetchFinished(s, ms, ss)
    case StartMovieSubmit => SubmitStarted(s)
    case FinishMovieSubmit(req, o) => MovieSubmitFinished(s, req, o)
    case StartScheduleSubmit => SubmitStarted(s)
    case FinishScheduleSubmit(o) => ScheduleSubmitFinished(s, o)
  }

  /** The state after the handler runs `es`, in order, starting from `s`. */
  function Run(s: AdminState, es: seq<AdminEvent>): AdminState
    decreases |es|
  {
    if es == [] then s else Run(Step(s, es[0]), es[1..])
  }

  lemma StepKeepsFormsExclusive(s: AdminState, e: AdminEvent)
    requires FormsExclusive(s)
    ensures FormsExclusive(Step(s, e))
  {
  }

  /** No run of handlers from an exclusive state opens both forms. */
  lemma {:induction false} RunKeepsFormsExclusive(s: AdminState, es: seq<AdminEvent>)
    requires FormsExclusive(s)
    ensures FormsExclusive(Run(s, es))
    decreases |es|
  {
    if es != [] {
      StepKeepsFormsExclusive(s, es[0]);
      RunKeepsFormsExclusive(Step(s, es[0]), es[1..]);
    }
  }

  /** Both forms start closed, so in every reachable state at most one is open. */
  lemma FormsNeverBothOpen(es: seq<AdminEvent>)
    ensures FormsExclusive(Run(INITIAL, es))
  {
    RunKeepsFormsExclusive(INITIAL, es);
  }

  /** Opening the create form and cancelling it discards the draft and leaves both forms closed. */
  lemma OpenAddThenCancel(s: AdminState)
    ensures Run(s, [OpenAdd, CloseMovie])
         == s.(showMovieForm := false, showScheduleForm := false, isEditingMovie := false, currentMovie := EMPTY_DRAFT)
  {
  }

  /** Submitting an edit form left unmodified sends exactly the selected movie's editable fields to its `id`. */
  lemma EditThenSubmitSendsMovie(s: AdminState, m: Movie, token: string)
    ensures MovieRequestFor(SubmitStarted(OpenEditMovieForm(s, m)), token)
         == UpdateMovie(m.id, MoviePayload(m.title, m.duration, m.synopsis, m.posterUrl), Bearer(token))
  {
  }

  /** Two drafts give the same payload exactly when they agree on every editable field, whatever their ids. */
  lemma PayloadIgnoresId(m1: Movie, m2: Movie)
    ensures PayloadOf(m1) == PayloadOf(m2) <==> forall f :: FieldOf(m1, f) == FieldOf(m2, f)
  {
    if forall f :: FieldOf(m1, f) == FieldOf(m2, f) {
      assert FieldOf(m1, Title) == FieldOf(m2, Title);
      assert FieldOf(m1, Duration) == FieldOf(m2, Duration);
      assert FieldOf(m1, Synopsis) == FieldOf(m2, Synopsis);
      assert FieldOf(m1, PosterUrl) == FieldOf(m2, PosterUrl);
    }
  }

  /** After a failed movie submit, submitting again sends the same request. */
  lemma ResubmitAfterFailure(s: AdminState, token: string, err: HttpError)
    ensures var req := MovieRequestFor(SubmitStarted(s), token);
            MovieRequestFor(MovieSubmitFinished(SubmitStarted(s), req, Failed(err)), token) == req
  {
  }

  /** The events that write `message`: the submit handlers. */
  predicate TouchesMessage(e: AdminEvent) {
    e.StartMovieSubmit? || e.FinishMovieSubmit? || e.StartScheduleSubmit? || e.FinishScheduleSubmit?
  }

  /** Opening, closing and editing forms and refetching never clear a shown success message. */
  lemma {:induction false} MessageKeptUntilNextSubmit(s: AdminState, es: seq<AdminEvent>)
    requires forall i :: 0 <= i < |es| ==> !TouchesMessage(es[i])
    ensures Run(s, es).message == s.message
    decreases |es|
  {
    if es != [] {
      assert !TouchesMessage(es[0]);
      assert Step(s, es[0]).message == s.message;
      MessageKeptUntilNextSubmit(Step(s, es[0]), es[1..]);
    }
  }
}
