/** A titled horizontal row of posters: where a poster press leads, and
    where "See All" leads when the screen gives no handler of its own. The
    clock read for the cache-busting parameter is an input. */
module MediaSlider {
  import opened Common
  import opened Strings
  import opened Media
  import opened Ui

  /** The slider renders nothing for empty data. */
  predicate Renders(data: seq<Movie>) {
    |data| > 0
  }

  /** `handlePress(item)`: the TV detail route for a TV slider or a TV item,
      the movie detail route otherwise; both carry the id and poster path. */
  function HandlePress(isTV: bool, item: Movie): (n: Navigation)
    ensures n.pathname == "/tv/[id]" <==> isTV || item.mediaType == Some("tv")
    ensures n.pathname == "/movies/[id]" <==> !isTV && item.mediaType != Some("tv")
    ensures n.params.Keys == {"id", "poster_path"}
    ensures n.params["id"] == Number(item.id)
    ensures n.params["poster_path"] == TextOrMissing(item.posterPath)
  {
    var params := map["id" := Number(item.id), "poster_path" := TextOrMissing(item.posterPath)];
    if isTV || item.mediaType == Some("tv") then Navigation("/tv/[id]", params)
    else Navigation("/movies/[id]", params)
  }

  /** In a TV slider every press opens a TV page, whatever the item says. */
  lemma TvSliderOpensTvPages(item: Movie, other: Movie)
    requires item.id == other.id && item.posterPath == other.posterPath
    ensures HandlePress(true, item) == HandlePress(true, other)
    ensures HandlePress(true, item).pathname == "/tv/[id]"
  {
  }

  /** The slider titles the default "See All" handler knows, each with the
      search category it opens. */
  const SEE_ALL_TABLE: seq<(string, string)> := [
    ("Now Playing", "now_playing"),
    ("On The Air", "now_playing"),
    ("Popular", "popular"),
    ("Top Rated", "top_rated"),
    ("Trending Now", "trending"),
    ("Anime Movies", "anime_movies"),
    ("Anime Series", "anime"),
    ("Reality Shows", "reality")]

  /** `title` is a known slider title that opens `category`. */
  predicate Opens(title: string, category: string) {
    (title, category) in SEE_ALL_TABLE
  }

  /** Every known title opens exactly one category. */
  lemma OpensIsAFunction(title: string, c1: string, c2: string)
    requires Opens(title, c1) && Opens(title, c2)
    ensures c1 == c2
  {
  }

  /** The search screen for a category and kind; `t` only forces an update. */
  function SearchNav(category: string, isTV: bool, now: int): Navigation {
    Navigation("/(tabs)/search", map[
      "category" := Text(category),
      "type" := Text(if isTV then "tv" else "movie"),
      "t" := Text(IntToString(now))])
  }

  /** What one "See All" press does. */
  datatype SeeAll = CalledOnSeeAll | Pushed(nav: Navigation) | NoAction

  /** `handleSeeAll()`: `hasOnSeeAll` says whether the screen passed its own
      handler, `now` is `Date.now()`. */
  method HandleSeeAll(title: string, isTV: bool, hasOnSeeAll: bool, now: int) returns (a: SeeAll)
    ensures hasOnSeeAll ==> a == CalledOnSeeAll
    ensures !hasOnSeeAll ==> (a.Pushed? <==> exists c :: Opens(title, c))
    ensures !hasOnSeeAll && !a.Pushed? ==> a == NoAction
    ensures a.Pushed? ==> exists c :: Opens(title, c) && a.nav == SearchNav(c, isTV, now)
  {
    if hasOnSeeAll {
      return CalledOnSeeAll;
    }
    var categoryParam := "";
    if title == "Now Playing" || title == "On The Air" {
      categoryParam := "now_playing";
    } else if title == "Popular" {
      categoryParam := "popular";
    } else if title == "Top Rated" {
      categoryParam := "top_rated";
    } else if title == "Trending Now" {
      categoryParam := "trending";
    } else if title == "Anime Movies" {
      categoryParam := "anime_movies";
    } else if title == "Anime Series" {
      categoryParam := "anime";
    } else if title == "Reality Shows" {
      categoryParam := "reality";
    }
    if categoryParam != "" {
      assert Opens(title, categoryParam);
      a := Pushed(SearchNav(categoryParam, isTV, now));
    } else {
      a := NoAction;
    }
  }

  /** The same slider pressed at two different instants pushes two different
      navigations, so the search screen always sees a change. */
  lemma SeeAllChangesWithTime(category: string, isTV: bool, t1: int, t2: int)
    requires t1 != t2
    ensures SearchNav(category, isTV, t1) != SearchNav(category, isTV, t2)
  {
    if SearchNav(category, isTV, t1) == SearchNav(category, isTV, t2) {
      assert SearchNav(category, isTV, t1).params["t"] == SearchNav(category, isTV, t2).params["t"];
      IntToStringInjective(t1, t2);
    }
  }
}
