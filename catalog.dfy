/** The records the client receives from the backend and edits in the admin forms. */
module Catalog {
  import opened Wrappers

  /**
   * A movie as the backend lists it and as the admin movie form edits it.
   * Field values are kept as the text the form holds; `id` is `null`
   * (None) in a draft for a movie not yet created.
   */
  datatype Movie = Movie(id: Option<int>, title: string, duration: string, synopsis: string, posterUrl: string)

  /** A showtime of one movie. */
  datatype Schedule = Schedule(id: int, movieId: int, showTime: string, price: int)

  /** A movie as the detail endpoint returns it, with its schedules. */
  datatype DetailedMovie = DetailedMovie(movie: Movie, schedules: seq<Schedule>)

  /** The draft the movie form starts from when it is reset. */
  const EMPTY_DRAFT := Movie(None, "", "", "", "")

  /** The four inputs of the movie form. */
  datatype MovieField = Title | Duration | PosterUrl | Synopsis

  function FieldOf(m: Movie, f: MovieField): string {
    match f
    case Title => m.title
    case Duration => m.duration
    case PosterUrl => m.posterUrl
    case Synopsis => m.synopsis
  }

  /** `{...currentMovie, <field>: value}`: one input of the movie form changed. */
  function WithField(m: Movie, f: MovieField, v: string): (r: Movie)
    ensures FieldOf(r, f) == v
    ensures forall g :: g != f ==> FieldOf(r, g) == FieldOf(m, g)
    ensures r.id == m.id
  {
    match f
    case Title => m.(title := v)
    case Duration => m.(duration := v)
    case PosterUrl => m.(posterUrl := v)
    case Synopsis => m.(synopsis := v)
  }

  /** The three inputs of the schedule form. */
  datatype ScheduleField = MovieChoice | ShowTime | Price
}
