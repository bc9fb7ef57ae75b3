/**
 * The admin panel component: its state cells as fields, each handler a
 * method that updates them one setter after another. Every method is
 * proved to move the state exactly as the matching AdminModel function.
 */
module AdminPanel {
  import opened Catalog
  import opened Api
  import AdminModel

  class AdminPage {
    /** The session token the page was opened with. */
    const token: string

    var movies: seq<Movie>
    var schedules: seq<Schedule>
    var loading: bool
    var error: string
    var message: string
    var showMovieForm: bool
    var showScheduleForm: bool
    var isEditingMovie: bool
    var currentMovie: Movie
    var scheduleMovieId: string
    var scheduleShowTime: string
    var schedulePrice: string

    /** The value of all state cells. */
    function State(): AdminModel.AdminState
      reads this
    {
      AdminModel.AdminState(movies, schedules, loading, error, message, showMovieForm, showScheduleForm,
                            isEditingMovie, currentMovie, scheduleMovieId, scheduleShowTime, schedulePrice)
    }

    ghost predicate Valid()
      reads this
    {
      AdminModel.FormsExclusive(State())
    }

    /** Mounting the page; the initial fetch is started by `StartFetch`. */
    constructor (token: string)
      ensures this.token == token
      ensures State() == AdminModel.INITIAL && Valid()
    {
      this.token := token;
      movies, schedules := [], [];
      loading, error, message := true, "", "";
      showMovieForm, showScheduleForm := false, false;
      isEditingMovie, currentMovie := false, EMPTY_DRAFT;
      scheduleMovieId, scheduleShowTime, schedulePrice := "", "", "";
    }

    method OpenEditMovieForm(m: Movie)
      requires Valid()
      modifies this
      ensures Valid() && State() == AdminModel.OpenEditMovieForm(old(State()), m)
    {
      isEditingMovie := true;
      currentMovie := m;
      showMovieForm := true;
      showScheduleForm := false;
    }

    method OpenAddMovieForm()
      requires Valid()
      modifies this
      ensures Valid() && State() == AdminModel.OpenAddMovieForm(old(State()))
    {
      isEditingMovie := false;
      currentMovie := EMPTY_DRAFT;
      showMovieForm := true;
      showScheduleForm := false;
    }

    /** The "add schedule" button. */
    method OpenScheduleForm()
      requires Valid()
      modifies this
      ensures Valid() && State() == AdminModel.OpenScheduleForm(old(State()))
    {
      showScheduleForm := true;
      showMovieForm := false;
    }

    method ResetAndCloseMovieForm()
      requires Valid()
      modifies this
      ensures Valid() && State() == AdminModel.ResetAndCloseMovieForm(old(State()))
    {
      showMovieForm := false;
      isEditingMovie := false;
      currentMovie := EMPTY_DRAFT;
    }

    method ResetAndCloseScheduleForm()
      requires Valid()
      modifies this
      ensures Valid() && State() == AdminModel.ResetAndCloseScheduleForm(old(State()))
    {
      showScheduleForm := false;
      scheduleMovieId := "";
      scheduleShowTime := "";
      schedulePrice := "";
    }

    method EditMovieField(f: MovieField, v: string)
      requires Valid()
      modifies this
      ensures Valid() && State() == AdminModel.EditMovieDraft(old(State()), f, v)
    {
      currentMovie := WithField(currentMovie, f, v);
    }

    method EditScheduleField(f: ScheduleField, v: string)
      requires Valid()
      modifies this
      ensures Valid() && State() == AdminModel.EditScheduleDraft(old(State()), f, v)
    {
      match f {
        case MovieChoice => scheduleMovieId := v;
        case ShowTime => scheduleShowTime := v;
        case Price => schedulePrice := v;
      }
    }

    /** `fetchData()` up to its `await`. */
    method StartFetch()
      requires Valid()
      modifies this
      ensures Valid() && State() == AdminModel.FetchStarted(old(State()))
    {
      loading := true;
    }

    /** `fetchData()` after both list requests settled. */
    method FinishFetch(moviesRes: Fetched<seq<Movie>>, schedulesRes: Fetched<seq<Schedule>>)
      requires Valid()
      modifies this
      ensures Valid() && State() == AdminModel.FetchFinished(old(State()), moviesRes, schedulesRes)
    {
      var both := Both(moviesRes, schedulesRes);
      if both.Loaded? {
        movies := both.data.0;
        schedules := both.data.1;
      } else {
        error := AdminModel.FETCH_FAILED;
      }
      loading := false;
    }

    /** `handleMovieFormSubmit` up to its `await`: returns the request it sends. */
    method StartMovieSubmit() returns (req: MovieRequest)
      requires Valid()
      modifies this
      ensures Valid() && State() == AdminModel.SubmitStarted(old(State()))
      ensures req == AdminModel.MovieRequestFor(old(State()), token)
    {
      loading := true;
      message := "";
      error := "";
      var payload := MoviePayload(currentMovie.title, currentMovie.duration, currentMovie.synopsis, currentMovie.posterUrl);
      var authorization := "Bearer " + token;
      if isEditingMovie {
        req := UpdateMovie(currentMovie.id, payload, authorization);
      } else {
        req := CreateMovie(payload, authorization);
      }
    }

    /**
     * `handleMovieFormSubmit` after `req` settled with `outcome`; `refetch`
     * says whether it asks for the lists to be fetched again.
     */
    method FinishMovieSubmit(req: MovieRequest, outcome: Outcome<()>) returns (refetch: bool)
      requires Valid()
      modifies this
      ensures Valid() && State() == AdminModel.MovieSubmitFinished(old(State()), req, outcome)
      ensures refetch <==> outcome.Succeeded?
    {
      if outcome.Succeeded? {
        if req.UpdateMovie? {
          message := AdminModel.MOVIE_UPDATED;
        } else {
          message := AdminModel.MOVIE_ADDED;
        }
        ResetAndCloseMovieForm();
        refetch := true;
      } else {
        error := MessageOr(outcome.error, AdminModel.MOVIE_SUBMIT_FALLBACK);
        refetch := false;
      }
      loading := false;
    }

    /** `handleScheduleFormSubmit` up to its `await`: returns the request it sends. */
    method StartScheduleSubmit() returns (req: ScheduleRequest)
      requires Valid()
      modifies this
      ensures Valid() && State() == AdminModel.SubmitStarted(old(State()))
      ensures req == AdminModel.ScheduleRequestFor(old(State()), token)
    {
      loading := true;
      message := "";
      error := "";
      req := CreateSchedule(scheduleMovieId, scheduleShowTime, schedulePrice, "Bearer " + token);
    }

    /** `handleScheduleFormSubmit` after its request settled with `outcome`. */
    method FinishScheduleSubmit(outcome: Outcome<()>) returns (refetch: bool)
      requires Valid()
      modifies this
      ensures Valid() && State() == AdminModel.ScheduleSubmitFinished(old(State()), outcome)
      ensures refetch <==> outcome.Succeeded?
    {
      if outcome.Succeeded? {
        message := AdminModel.SCHEDULE_ADDED;
        ResetAndCloseScheduleForm();
        refetch := true;
      } else {
        error := MessageOr(outcome.error, AdminModel.SCHEDULE_SUBMIT_FALLBACK);
        refetch := false;
      }
      loading := false;
    }
  }
}
