/**
 * The movie catalog and movie detail pages: one request on mount (and,
 * for the detail page, on every change of the movie id), and the order in
 * which loading, error, not-found and content are rendered.
 */
module FetchViews {
  import opened Wrappers
  import opened Catalog
  import opened Api

  const LIST_FETCH_FAILED := "Gagal mengambil data. Pastikan server backend berjalan."
  const DETAIL_FETCH_FAILED := "Gagal mengambil detail film."

  /** What the catalog page renders; "" stands for a null error. */
  datatype ListView = ListLoading | ListError(message: string) | MovieGrid(movies: seq<Movie>)

  /** Loading first, then a non-empty error, then the grid of every fetched movie. */
  function ListRender(loading: bool, error: string, movies: seq<Movie>): (v: ListView)
    ensures v.ListLoading? <==> loading
    ensures v.ListError? <==> !loading && error != ""
    ensures v.ListError? ==> v.message == error
    ensures v.MovieGrid? ==> v.movies == movies
  {
    if loading then ListLoading
    else if error != "" then ListError(error)
    else MovieGrid(movies)
  }

  /** What the detail page renders. */
  datatype DetailView = DetailLoading | DetailError(message: string) | NotFound | DetailShown(movie: DetailedMovie)

  /** Loading first, then a non-empty error, then "not found" for a null movie, then the movie. */
  function DetailRender(loading: bool, error: string, movie: Option<DetailedMovie>): (v: DetailView)
    ensures v.DetailLoading? <==> loading
    ensures v.DetailError? <==> !loading && error != ""
    ensures v.DetailError? ==> v.message == error
    ensures v.NotFound? <==> !loading && error == "" && movie.None?
    ensures v.DetailShown? ==> movie == Some(v.movie)
  {
    if loading then DetailLoading
    else if error != "" then DetailError(error)
    else if movie.None? then NotFound
    else DetailShown(movie.value)
  }

  class MovieList {
    var movies: seq<Movie>
    var loading: bool
    var error: string

    constructor ()
      ensures movies == [] && loading && error == ""
    {
      movies, loading, error := [], true, "";
    }

    /** `fetchMovies` after `GET /api/movies` settled. */
    method FetchResolved(result: Fetched<seq<Movie>>)
      modifies this
      ensures !loading
      ensures result.Loaded? ==> movies == result.data && error == old(error)
      ensures result.FetchError? ==> movies == old(movies) && error == LIST_FETCH_FAILED
    {
      match result {
        case Loaded(ms) => movies := ms;
        case FetchError => error := LIST_FETCH_FAILED;
      }
      loading := false;
    }

    function View(): ListView
      reads this
    {
      ListRender(loading, error, movies)
    }
  }

  /** The catalog right after its mount request settled: every fetched movie, or the fixed error. */
  method CatalogAfterMount(result: Fetched<seq<Movie>>) returns (v: ListView)
    ensures result.Loaded? ==> v == MovieGrid(result.data)
    ensures result.FetchError? ==> v == ListError(LIST_FETCH_FAILED)
  {
    var page := new MovieList();
    page.FetchResolved(result);
    v := page.View();
  }

  class MovieDetail {
    /** The `:id` route parameter. */
    var id: string
    var movie: Option<DetailedMovie>
    var loading: bool
    var error: string
    var selectedSchedule: Option<Schedule>

    constructor (id: string)
      ensures this.id == id && movie == None && loading && error == "" && selectedSchedule == None
    {
      this.id := id;
      movie, loading, error, selectedSchedule := None, true, "", None;
    }

    /** The effect, run on mount and after every id change: the movie id it requests. */
    method StartFetch() returns (requested: string)
      ensures requested == id
    {
      requested := id;
    }

    /** Navigating to another movie: only the parameter changes; nothing is reset. */
    method ChangeId(newId: string)
      modifies this
      ensures id == newId
      ensures movie == old(movie) && loading == old(loading) && error == old(error)
      ensures selectedSchedule == old(selectedSchedule)
    {
      id := newId;
    }

    /**
     * `fetchMovieDetail` after its request settled, whichever id it was for:
     * the movie is replaced on success, the fixed error is set on failure.
     */
    method FetchResolved(result: Fetched<Option<DetailedMovie>>)
      modifies this
      ensures !loading && id == old(id) && selectedSchedule == old(selectedSchedule)
      ensures result.Loaded? ==> movie == result.data && error == old(error)
      ensures result.FetchError? ==> movie == old(movie) && error == DETAIL_FETCH_FAILED
    {
      match result {
        case Loaded(m) => movie := m;
        case FetchError => error := DETAIL_FETCH_FAILED;
      }
      loading := false;
    }

    /** A click on a schedule button. */
    method SelectSchedule(s: Schedule)
      modifies this
      ensures selectedSchedule == Some(s)
      ensures id == old(id) && movie == old(movie) && loading == old(loading) && error == old(error)
    {
      selectedSchedule := Some(s);
    }

    /** `selectedSchedule?.id === schedule.id`: whether a schedule button is highlighted. */
    predicate IsSelected(s: Schedule)
      reads this
    {
      selectedSchedule.Some? && selectedSchedule.value.id == s.id
    }

    function View(): DetailView
      reads this
    {
      DetailRender(loading, error, movie)
    }
  }

  /**
   * Movie 1 is requested (`first`), the user moves to movie 2 (`second`),
   * the response to `second` arrives and then the response to `first`:
   * the page shows movie 1 under id 2.
   */
  method LateResponseOverwrites(m1: DetailedMovie, m2: DetailedMovie)
    returns (first: string, second: string, shownId: string, v: DetailView)
    ensures first == "1" && second == "2"
    ensures shownId == "2" && v == DetailShown(m1)
  {
    var page := new MovieDetail("1");
    first := page.StartFetch();
    page.ChangeId("2");
    second := page.StartFetch();
    page.FetchResolved(Loaded(Some(m2)));
    page.FetchResolved(Loaded(Some(m1)));
    shownId := page.id;
    v := page.View();
  }

  /**
   * The request for movie 1 (`first`) fails, the user moves to movie 2
   * (`second`) and its request succeeds: the error view stays.
   */
  method ErrorOutlivesNavigation(m2: DetailedMovie) returns (first: string, second: string, v: DetailView)
    ensures first == "1" && second == "2"
    ensures v == DetailError(DETAIL_FETCH_FAILED)
  {
    var page := new MovieDetail("1");
    first := page.StartFetch();
    page.FetchResolved(FetchError);
    page.ChangeId("2");
    second := page.StartFetch();
    page.FetchResolved(Loaded(Some(m2)));
    v := page.View();
  }

  /** The highlighted schedule is the one last clicked, matched by id. */
  method SelectionHighlights(id: string, s: Schedule, other: Schedule) returns (selected: bool, otherSelected: bool)
    ensures selected
    ensures otherSelected <==> other.id == s.id
  {
    var page := new MovieDetail(id);
    page.SelectSchedule(s);
    selected := page.IsSelected(s);
    otherSelected := page.IsSelected(other);
  }
}
