/** The TMDB content record the screens pass around and store in the user's list. */
module Media {
  import opened Common

  /** A movie or TV show as TMDB returns it. Comparisons are by value, as
      Firestore compares array elements; `other` stands for the fields the
      model does not name (overview, vote average, dates, ...). */
  datatype Movie = Movie(
    id: int,
    title: Option<string>,
    name: Option<string>,
    posterPath: Option<string>,
    mediaType: Option<string>,
    genreIds: Option<seq<int>>,
    other: map<string, string>)

  datatype MediaType = MovieType | TvType {
    /** The path segment TMDB uses for the kind. */
    function Path(): string {
      if MovieType? then "movie" else "tv"
    }
  }

  predicate HasPoster(m: Movie) {
    Truthy(m.posterPath)
  }
}
