/** The "Browse by Genre" row on the home tabs: which genre list each tab
    shows and where a genre press leads. */
module GenreSection {
  import opened Ui

  /** The tab the row sits on. */
  datatype SectionType = Movies | Tv | Anime

  /** A genre card (its picture aside). */
  datatype GenreItem = GenreItem(id: int, name: string)

  const MOVIE_GENRES: seq<GenreItem> := [
    GenreItem(28, "Action"), GenreItem(12, "Adventure"), GenreItem(35, "Comedy"),
    GenreItem(18, "Drama"), GenreItem(10749, "Romance"), GenreItem(27, "Horror"),
    GenreItem(878, "Sci-Fi"), GenreItem(14, "Fantasy"), GenreItem(53, "Thriller"),
    GenreItem(80, "Crime"), GenreItem(16, "Animation"), GenreItem(10751, "Family")]

  const TV_GENRES: seq<GenreItem> := [
    GenreItem(18, "Drama"), GenreItem(35, "Comedy"), GenreItem(80, "Crime"),
    GenreItem(9648, "Mystery"), GenreItem(10765, "Sci-Fi"), GenreItem(10751, "Family"),
    GenreItem(16, "Animation")]

  const ANIME_GENRES: seq<GenreItem> := [
    GenreItem(28, "Action"), GenreItem(16, "Animation"), GenreItem(14, "Fantasy"),
    GenreItem(12, "Adventure"), GenreItem(35, "Comedy"), GenreItem(18, "Drama")]

  /** `genres`: the list each tab shows. */
  function Genres(t: SectionType): seq<GenreItem> {
    match t
    case Movies => MOVIE_GENRES
    case Tv => TV_GENRES
    case Anime => ANIME_GENRES
  }

  /** The cards of a list carry distinct ids and distinct names (the id is
      the card's key). */
  predicate DistinctCards(gs: seq<GenreItem>) {
    forall i, j :: 0 <= i < j < |gs| ==> gs[i].id != gs[j].id && gs[i].name != gs[j].name
  }

  /** The TMDB names used for search: "movie" for the movie tab; anime is
      searched among TV shows. */
  function SearchType(t: SectionType): (r: string)
    ensures r == "movie" <==> t == Movies
    ensures r == "tv" <==> t != Movies
  {
    if t == Movies then "movie" else "tv"
  }

  /** `handleGenrePress(genre)`. */
  function HandleGenrePress(t: SectionType, genre: GenreItem): (n: Navigation)
    ensures n.pathname == "/search"
    ensures n.params.Keys == {"genreId", "type"}
    ensures n.params["genreId"] == Number(genre.id)
    ensures n.params["type"] == Text(SearchType(t))
  {
    Navigation("/search", map["genreId" := Number(genre.id), "type" := Text(SearchType(t))])
  }

  /** Every list shows distinct cards, so a press identifies its genre. */
  lemma GenreListsAreDistinct(t: SectionType)
    ensures DistinctCards(Genres(t))
  {
    match t
    case Movies => MovieGenresDistinct();
    case Tv => TvGenresDistinct();
    case Anime => assert DistinctCards(ANIME_GENRES);
  }

  /** The TV list on its own. */
  lemma TvGenresDistinct()
    ensures DistinctCards(TV_GENRES)
  {
  }

  /** The movie list on its own. */
  lemma MovieGenresDistinct()
    ensures DistinctCards(MOVIE_GENRES)
  {
  }

  /** Different cards of one tab lead to different searches. */
  lemma GenrePressIdentifiesCard(t: SectionType, i: int, j: int)
    requires 0 <= i < j < |Genres(t)|
    ensures HandleGenrePress(t, Genres(t)[i]) != HandleGenrePress(t, Genres(t)[j])
  {
    GenreListsAreDistinct(t);
    var gi, gj := Genres(t)[i], Genres(t)[j];
    assert HandleGenrePress(t, gi).params["genreId"] == Number(gi.id);
    assert HandleGenrePress(t, gj).params["genreId"] == Number(gj.id);
  }

  /** The same card name can stand for different TMDB ids: movie Sci-Fi is
      878, TV Sci-Fi is 10765, and each id appears only in its own list. */
  lemma SciFiIdsDiffer()
    ensures GenreItem(878, "Sci-Fi") in Genres(Movies)
    ensures GenreItem(10765, "Sci-Fi") in Genres(Tv)
    ensures forall g :: g in Genres(Tv) ==> g.id != 878
    ensures forall g :: g in Genres(Movies) ==> g.id != 10765
  {
    assert MOVIE_GENRES[6] == GenreItem(878, "Sci-Fi");
    assert TV_GENRES[4] == GenreItem(10765, "Sci-Fi");
    forall g | g in TV_GENRES ensures g.id != 878 {
      var i :| 0 <= i < |TV_GENRES| && TV_GENRES[i] == g;
    }
    forall g | g in MOVIE_GENRES ensures g.id != 10765 {
      var i :| 0 <= i < |MOVIE_GENRES| && MOVIE_GENRES[i] == g;
    }
  }
}
