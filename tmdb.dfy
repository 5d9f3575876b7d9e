/** The TMDB service layer: URL construction, the shaping of HTTP responses
    into pages, the recommendations fallback, trailer choice and the table of
    streaming servers. Every HTTP exchange is an input: `fetch` maps a URL to
    the parsed body, a non-ok status, or the error the request threw. */
module Tmdb {
  import opened Common
  import opened Strings
  import opened Media

  const BASE_URL: string := "https://api.themoviedb.org/3"
  const IMAGE_BASE_URL: string := "https://image.tmdb.org/t/p"

  /** One awaited `fetch` followed by `response.json()`. */
  datatype Response<T> = Ok(body: T) | NotOk(status: int) | Failed(error: SdkError)

  /** The error a helper throws for a non-ok status. */
  function StatusError(status: int): SdkError {
    SdkError("", "TMDB API error: " + IntToString(status))
  }

  // ---------------------------------------------------------------- images

  datatype ImageSize = W200 | W300 | W500 | W780 | Original {
    function Name(): string {
      match this
      case W200 => "w200"
      case W300 => "w300"
      case W500 => "w500"
      case W780 => "w780"
      case Original => "original"
    }
  }

  /** The size `getImageUrl` uses when the caller names none. */
  const DEFAULT_IMAGE_SIZE: ImageSize := W500

  /** `getImageUrl(path, size)`: no URL for a missing or empty path. */
  function ImageUrl(path: Option<string>, size: ImageSize): (r: Option<string>)
    ensures r.Some? <==> Truthy(path)
    ensures r.Some? ==> StartsWith(r.value, IMAGE_BASE_URL + "/") && EndsWith(r.value, path.value)
  {
    if Truthy(path) then Some(IMAGE_BASE_URL + "/" + size.Name() + path.value) else None
  }

  /** Reads a size and a path back out of an image URL. */
  function ParseImageUrl(url: string): Option<(ImageSize, string)> {
    var prefix := IMAGE_BASE_URL + "/";
    if !StartsWith(url, prefix) then None else ParseSized(url[|prefix|..])
  }

  /** Reads a size name and the path after it. */
  function ParseSized(rest: string): Option<(ImageSize, string)> {
    if StartsWith(rest, "w200") then Some((W200, rest[4..]))
    else if StartsWith(rest, "w300") then Some((W300, rest[4..]))
    else if StartsWith(rest, "w500") then Some((W500, rest[4..]))
    else if StartsWith(rest, "w780") then Some((W780, rest[4..]))
    else if StartsWith(rest, "original") then Some((Original, rest[8..]))
    else None
  }

  /** A size name followed by a path reads back as that size and path. */
  lemma ParseSizedName(size: ImageSize, path: string)
    ensures ParseSized(size.Name() + path) == Some((size, path))
  {
    var rest := size.Name() + path;
    assert rest[..|size.Name()|] == size.Name();
    assert rest[|size.Name()|..] == path;
    assert rest[..4][0] == rest[0] == size.Name()[0];
    assert rest[..4][1] == rest[1] == size.Name()[1];
  }

  /** The image URL determines the size and the path it was built from. */
  lemma ImageUrlRoundTrip(path: string, size: ImageSize)
    requires path != ""
    ensures ImageUrl(Some(path), size).Some?
    ensures ParseImageUrl(ImageUrl(Some(path), size).value) == Some((size, path))
  {
    var prefix := IMAGE_BASE_URL + "/";
    var rest := size.Name() + path;
    var url := prefix + rest;
    assert ImageUrl(Some(path), size).value == url;
    assert url[..|prefix|] == prefix;
    assert url[|prefix|..] == rest;
    ParseSizedName(size, path);
  }

  // ---------------------------------------------------------------- pages

  /** A page body as TMDB sends it; any field may be missing. */
  datatype PageBody = PageBody(results: Option<seq<Movie>>, totalResults: Option<int>, totalPages: Option<int>)

  /** `PaginatedResponse`. */
  datatype Page = Page(results: seq<Movie>, totalResults: int, totalPages: int)

  /** What the search, discover and home helpers return for a blank query or an error. */
  const EMPTY_PAGE: Page := Page([], 0, 0)

  /** The pagination defaults of a successful response: `total_results || 0`
      and `total_pages || 1`. The successful page never reports zero pages. */
  function Shape(body: PageBody, results: seq<Movie>): (r: Page)
    ensures r.results == results && r.totalPages != 0
    ensures body.totalResults.None? ==> r.totalResults == 0
    ensures body.totalPages.None? || body.totalPages.value == 0 ==> r.totalPages == 1
    ensures body.totalPages.Some? && body.totalPages.value != 0 ==> r.totalPages == body.totalPages.value
    ensures body.totalResults.Some? ==> r.totalResults == body.totalResults.value
  {
    Page(results, OrNumber(body.totalResults, 0), OrNumber(body.totalPages, 1))
  }

  datatype SearchKind = SearchMovie | SearchTv | SearchMulti {
    function Path(): string {
      match this
      case SearchMovie => "movie"
      case SearchTv => "tv"
      case SearchMulti => "multi"
    }
  }

  function SearchUrl(kind: SearchKind, query: string, page: int): string {
    BASE_URL + "/search/" + kind.Path() + "?query=" + EncodeUriComponent(query)
      + "&include_adult=false&page=" + IntToString(page)
  }

  predicate IsMovieOrTv(m: Movie) {
    m.mediaType == Some("movie") || m.mediaType == Some("tv")
  }

  /** `searchMovies`, `searchTV` and `searchMulti`. A whitespace-only query
      returns the empty page without a request; a zero page count marks
      exactly the blank and the failed cases. */
  function Search(kind: SearchKind, query: string, page: int, fetch: string -> Response<PageBody>): (r: Page)
    ensures IsBlank(query) ==> r == EMPTY_PAGE
    ensures !IsBlank(query) && !fetch(SearchUrl(kind, query, page)).Ok? ==> r == EMPTY_PAGE
    ensures r.totalPages == 0 <==> IsBlank(query) || !fetch(SearchUrl(kind, query, page)).Ok?
    ensures kind == SearchMulti ==> forall m :: m in r.results ==> IsMovieOrTv(m)
    ensures !IsBlank(query) && fetch(SearchUrl(kind, query, page)).Ok? ==>
      var body := fetch(SearchUrl(kind, query, page)).body;
      (kind != SearchMulti ==> r == Shape(body, body.results.GetOr([]))) &&
      (kind == SearchMulti ==> r == Shape(body, Filter(body.results.GetOr([]), IsMovieOrTv))) &&
      (forall m :: m in r.results <==> m in body.results.GetOr([]) && (kind == SearchMulti ==> IsMovieOrTv(m)))
  {
    TrimEmptyIffBlank(query);
    if Trim(query) == [] then EMPTY_PAGE
    else
      match fetch(SearchUrl(kind, query, page))
      case Ok(body) =>
        var items := body.results.GetOr([]);
        Shape(body, if kind == SearchMulti then Filter(items, IsMovieOrTv) else items)
      case _ => EMPTY_PAGE
  }

  /** The multi search keeps relative order: the kept items of a prefix come
      before the kept items of what follows it. */
  lemma SearchMultiKeepsOrder(items: seq<Movie>, split: nat)
    requires split <= |items|
    ensures Filter(items, IsMovieOrTv) == Filter(items[..split], IsMovieOrTv) + Filter(items[split..], IsMovieOrTv)
  {
    assert items == items[..split] + items[split..];
    FilterConcat(items[..split], items[split..], IsMovieOrTv);
  }

  /** `fetchFromTMDB(endpoint)`: poster-less items are dropped; a non-ok
      status and a thrown error both give the empty page. */
  function FetchFromTmdb(endpoint: string, fetch: string -> Response<PageBody>): (r: Page)
    ensures !fetch(BASE_URL + endpoint).Ok? ==> r == EMPTY_PAGE
    ensures r.totalPages == 0 <==> !fetch(BASE_URL + endpoint).Ok?
    ensures forall m :: m in r.results ==> HasPoster(m)
    ensures fetch(BASE_URL + endpoint).Ok? ==>
      forall m :: m in r.results <==> m in fetch(BASE_URL + endpoint).body.results.GetOr([]) && HasPoster(m)
    ensures fetch(BASE_URL + endpoint).Ok? ==>
      var body := fetch(BASE_URL + endpoint).body;
      r == Shape(body, Filter(body.results.GetOr([]), HasPoster))
  {
    match fetch(BASE_URL + endpoint)
    case Ok(body) => Shape(body, Filter(body.results.GetOr([]), HasPoster))
    case _ => EMPTY_PAGE
  }

  /** The home-screen feeds, each a fixed endpoint passed to `fetchFromTMDB`
      (`fetchByCompany` and `fetchTVByGenre` keep only its results). */
  datatype Feed =
    | Trending(kind: MediaType)
    | NowPlaying(page: int)
    | TopRated(kind: MediaType, page: int)
    | Popular(kind: MediaType, page: int)
    | OnTheAir(page: int)
    | Anime(page: int)
    | AnimeMovies(page: int)
    | TopRatedAnime(page: int)
    | ByCompany(companyId: int)
    | TvByGenre(genreId: int)

  function FeedEndpoint(f: Feed): string {
    match f
    case Trending(kind) => "/trending/" + kind.Path() + "/week?language=en-US"
    case NowPlaying(page) => "/movie/now_playing?language=en-US&page=" + IntToString(page)
    case TopRated(kind, page) => "/" + kind.Path() + "/top_rated?language=en-US&page=" + IntToString(page)
    case Popular(kind, page) => "/" + kind.Path() + "/popular?language=en-US&page=" + IntToString(page)
    case OnTheAir(page) => "/tv/on_the_air?language=en-US&page=" + IntToString(page)
    case Anime(page) =>
      "/discover/tv?with_genres=16&sort_by=popularity.desc&vote_average.gte=4&page=" + IntToString(page)
    case AnimeMovies(page) =>
      "/discover/movie?with_genres=16&sort_by=popularity.desc&vote_average.gte=4&with_release_type=3|4&page="
        + IntToString(page)
    case TopRatedAnime(page) =>
      "/discover/tv?with_genres=16&sort_by=vote_average.desc&vote_count.gte=100&page=" + IntToString(page)
    case ByCompany(companyId) =>
      "/discover/movie?with_companies=" + IntToString(companyId) + "&sort_by=popularity.desc&page=1"
    case TvByGenre(genreId) =>
      "/discover/tv?with_genres=" + IntToString(genreId) + "&sort_by=popularity.desc&page=1"
  }

  function ByCompanyUrl(companyId: int, page: int): string {
    BASE_URL + "/discover/movie?with_companies=" + IntToString(companyId)
      + "&sort_by=popularity.desc&page=" + IntToString(page)
  }

  /** `fetchByCompanyPaginated`: unlike the search helpers, its error page
      reports one page, so it never reports zero pages. */
  function FetchByCompanyPaginated(companyId: int, page: int, fetch: string -> Response<PageBody>): (r: Page)
    ensures !fetch(ByCompanyUrl(companyId, page)).Ok? ==> r == Page([], 0, 1)
    ensures r.totalPages != 0
    ensures fetch(ByCompanyUrl(companyId, page)).Ok? ==>
      var body := fetch(ByCompanyUrl(companyId, page)).body;
      r == Shape(body, body.results.GetOr([]))
  {
    match fetch(ByCompanyUrl(companyId, page))
    case Ok(body) => Shape(body, body.results.GetOr([]))
    case _ => Page([], 0, 1)
  }

  /** A TMDB list body: its entries are under `items`. */
  datatype ListBody = ListBody(items: Option<seq<Movie>>, totalResults: Option<int>)

  /** `Math.ceil(n / 20)`: the number of 20-item pages that hold `n` items. */
  function PageCount(n: int): (pages: int)
    ensures 20 * (pages - 1) < n <= 20 * pages
  {
    (n + 19) / 20
  }

  /** `total_results || items?.length || 0`. */
  function ListCount(body: ListBody): (n: int)
    ensures body.totalResults.Some? && body.totalResults.value != 0 ==> n == body.totalResults.value
    ensures (body.totalResults.None? || body.totalResults.value == 0) ==>
      n == if body.items.Some? then |body.items.value| else 0
  {
    OrNumber(body.totalResults, if body.items.Some? then |body.items.value| else 0)
  }

  function ListUrl(listId: string, page: int): string {
    BASE_URL + "/list/" + listId + "?language=en-US&page=" + IntToString(page)
  }

  /** `fetchList(listId, page)`; `listId` is the text the id renders to. */
  function FetchList(listId: string, page: int, fetch: string -> Response<ListBody>): (r: Page)
    ensures !fetch(ListUrl(listId, page)).Ok? ==> r == Page([], 0, 1)
    ensures fetch(ListUrl(listId, page)).Ok? ==>
      var body := fetch(ListUrl(listId, page)).body;
      r.totalResults == ListCount(body) &&
      20 * (r.totalPages - 1) < r.totalResults <= 20 * r.totalPages &&
      r.results == Filter(body.items.GetOr([]), HasPoster) &&
      (forall m :: m in r.results <==> m in body.items.GetOr([]) && HasPoster(m))
  {
    match fetch(ListUrl(listId, page))
    case Ok(body) =>
      var n := ListCount(body);
      Page(Filter(body.items.GetOr([]), HasPoster), n, PageCount(n))
    case _ => Page([], 0, 1)
  }

  // ---------------------------------------------------------------- recommendations

  function RecommendationsUrl(kind: MediaType, id: int): string {
    BASE_URL + "/" + kind.Path() + "/" + IntToString(id) + "/recommendations?language=en-US&page=1"
  }

  function SimilarUrl(kind: MediaType, id: int): string {
    BASE_URL + "/" + kind.Path() + "/" + IntToString(id) + "/similar?language=en-US&page=1"
  }

  function Posters(body: PageBody): seq<Movie> {
    Filter(body.results.GetOr([]), HasPoster)
  }

  /** The recommendations response is used when it is ok and has a poster-bearing item. */
  predicate UsesRecommendations(rec: Response<PageBody>) {
    rec.Ok? && |Posters(rec.body)| > 0
  }

  /** `fetchRecommendedMovies` and `fetchTVRecommendations`: at most ten
      poster-bearing recommendations, else at most ten poster-bearing similar
      titles, else nothing. It never throws. A recommendations request that
      throws goes straight to the outer catch and skips the fallback. */
  function Recommended(kind: MediaType, id: int, fetch: string -> Response<PageBody>): (r: seq<Movie>)
    ensures |r| <= 10
    ensures forall m :: m in r ==> HasPoster(m)
    ensures UsesRecommendations(fetch(RecommendationsUrl(kind, id))) ==>
      r == Take(Posters(fetch(RecommendationsUrl(kind, id)).body), 10)
    ensures fetch(RecommendationsUrl(kind, id)).Failed? ==> r == []
    ensures !UsesRecommendations(fetch(RecommendationsUrl(kind, id))) && !fetch(RecommendationsUrl(kind, id)).Failed? ==>
      r == if fetch(SimilarUrl(kind, id)).Ok? then Take(Posters(fetch(SimilarUrl(kind, id)).body), 10) else []
  {
    var rec := fetch(RecommendationsUrl(kind, id));
    if rec.Failed? then []
    else if UsesRecommendations(rec) then Take(Posters(rec.body), 10)
    else
      match fetch(SimilarUrl(kind, id))
      case Ok(body) => Take(Posters(body), 10)
      case _ => []
  }

  /** When the recommendations are used, the similar response does not matter. */
  lemma RecommendedIgnoresSimilar(kind: MediaType, id: int, f: string -> Response<PageBody>, g: string -> Response<PageBody>)
    requires f(RecommendationsUrl(kind, id)) == g(RecommendationsUrl(kind, id))
    requires UsesRecommendations(f(RecommendationsUrl(kind, id)))
    ensures Recommended(kind, id, f) == Recommended(kind, id, g)
  {
  }

  /** Every recommended title comes from the recommendations or the similar list. */
  lemma RecommendedFromSources(kind: MediaType, id: int, fetch: string -> Response<PageBody>, m: Movie)
    requires m in Recommended(kind, id, fetch)
    ensures (fetch(RecommendationsUrl(kind, id)).Ok? && m in fetch(RecommendationsUrl(kind, id)).body.results.GetOr([]))
         || (fetch(SimilarUrl(kind, id)).Ok? && m in fetch(SimilarUrl(kind, id)).body.results.GetOr([]))
  {
    var rec := fetch(RecommendationsUrl(kind, id));
    if UsesRecommendations(rec) {
      assert m in Posters(rec.body);
    } else {
      var sim := fetch(SimilarUrl(kind, id));
      assert sim.Ok? && m in Posters(sim.body);
    }
  }

  // ---------------------------------------------------------------- credits and videos

  datatype CreditsBody<C, W> = CreditsBody(cast: Option<seq<C>>, crew: Option<seq<W>>)
  datatype Credits<C, W> = Credits(cast: seq<C>, crew: seq<W>)

  function CreditsUrl(kind: MediaType, id: int): string {
    BASE_URL + "/" + kind.Path() + "/" + IntToString(id) + "/credits?language=en-US"
  }

  /** `fetchMovieCredits` and `fetchTVCredits` after the request: the first
      ten cast members and the whole crew; errors are rethrown. */
  function ShapeCredits<C, W>(resp: Response<CreditsBody<C, W>>): (r: Sdk<Credits<C, W>>)
    ensures r.Done? <==> resp.Ok?
    ensures resp.Ok? ==>
      |r.value.cast| <= 10 && r.value.cast <= resp.body.cast.GetOr([]) &&
      r.value.crew == resp.body.crew.GetOr([])
    ensures resp.Ok? && |resp.body.cast.GetOr([])| >= 10 ==> |r.value.cast| == 10
    ensures resp.Ok? ==> r.value.cast == Take(resp.body.cast.GetOr([]), 10)
    ensures resp.NotOk? ==> r == Threw(StatusError(resp.status))
    ensures resp.Failed? ==> r == Threw(resp.error)
  {
    match resp
    case Ok(body) => Done(Credits(Take(body.cast.GetOr([]), 10), body.crew.GetOr([])))
    case NotOk(status) => Threw(StatusError(status))
    case Failed(e) => Threw(e)
  }

  /** A video entry; `kind` is TMDB's `type` field. */
  datatype Video = Video(key: string, site: string, kind: string)

  predicate IsTrailer(v: Video) {
    v.site == "YouTube" && (v.kind == "Trailer" || v.kind == "Teaser")
  }

  const YOUTUBE_WATCH_URL: string := "https://www.youtube.com/watch?v="

  /** `getTrailerUrl`: the watch URL of the first YouTube trailer or teaser. */
  function TrailerUrl(videos: seq<Video>): (r: Option<string>)
    ensures r.None? <==> forall i :: 0 <= i < |videos| ==> !IsTrailer(videos[i])
    ensures r.Some? ==> exists i :: (0 <= i < |videos| && IsTrailer(videos[i]) &&
      (forall j :: 0 <= j < i ==> !IsTrailer(videos[j])) &&
      r.value == YOUTUBE_WATCH_URL + videos[i].key)
  {
    match Find(videos, IsTrailer)
    case None => None
    case Some(v) => Some(YOUTUBE_WATCH_URL + v.key)
  }

  // ---------------------------------------------------------------- streaming servers

  /** The keys of `STREAMING_SERVERS`, in declaration order. */
  datatype Server = AutoEmbed | VidSrc | TwoEmbed | SuperEmbed | SmashyStream {
    function Key(): string {
      match this
      case AutoEmbed => "autoembed"
      case VidSrc => "vidsrc"
      case TwoEmbed => "twoembed"
      case SuperEmbed => "superembed"
      case SmashyStream => "smashystream"
    }

    /** `SERVER_NAMES`. */
    function DisplayName(): string {
      match this
      case AutoEmbed => "AutoEmbed"
      case VidSrc => "VidSrc"
      case TwoEmbed => "2Embed"
      case SuperEmbed => "SuperEmbed"
      case SmashyStream => "SmashyStream"
    }

    /** The embed URL the server builds for a TMDB id. */
    function Url(id: int): string {
      match this
      case AutoEmbed => "https://player.autoembed.cc/embed/movie/" + IntToString(id)
      case VidSrc => "https://vidsrc.to/embed/movie/" + IntToString(id)
      case TwoEmbed => "https://www.2embed.cc/embed/" + IntToString(id)
      case SuperEmbed => "https://multiembed.mov/directstream.php?video_id=" + IntToString(id) + "&tmdb=1"
      case SmashyStream => "https://player.smashy.stream/movie/" + IntToString(id)
    }
  }

  /** `Object.keys(STREAMING_SERVERS)`. */
  const SERVERS: seq<Server> := [AutoEmbed, VidSrc, TwoEmbed, SuperEmbed, SmashyStream]

  /** `STREAMING_SERVERS[key]`: missing for a key outside the table. */
  function ServerForKey(key: string): (r: Option<Server>)
    ensures r.Some? ==> r.value.Key() == key && r.value in SERVERS
    ensures r.None? ==> forall s :: s in SERVERS ==> s.Key() != key
  {
    if key == "autoembed" then Some(AutoEmbed)
    else if key == "vidsrc" then Some(VidSrc)
    else if key == "twoembed" then Some(TwoEmbed)
    else if key == "superembed" then Some(SuperEmbed)
    else if key == "smashystream" then Some(SmashyStream)
    else None
  }

  /** Each server's URL names exactly one title: different ids give different URLs. */
  lemma ServerUrlInjective(s: Server, a: int, b: int)
    requires s.Url(a) == s.Url(b)
    ensures a == b
  {
    var p := match s
      case AutoEmbed => "https://player.autoembed.cc/embed/movie/"
      case VidSrc => "https://vidsrc.to/embed/movie/"
      case TwoEmbed => "https://www.2embed.cc/embed/"
      case SuperEmbed => "https://multiembed.mov/directstream.php?video_id="
      case SmashyStream => "https://player.smashy.stream/movie/";
    var q := if s == SuperEmbed then "&tmdb=1" else "";
    var x, y := IntToString(a), IntToString(b);
    assert s.Url(a) == p + x + q && s.Url(b) == p + y + q;
    assert |x| == |y|;
    assert x == (p + x + q)[|p|..|p| + |x|];
    assert y == (p + y + q)[|p|..|p| + |y|];
    IntToStringInjective(a, b);
  }

  // ---------------------------------------------------------------- discover

  /** A discover parameter that callers pass as a string or a number. */
  datatype Scalar = Str(s: string) | Num(n: int) {
    predicate IsTruthy() {
      if Str? then s != "" else n != 0
    }

    /** `.toString()`. */
    function Text(): string {
      if Str? then s else IntToString(n)
    }
  }

  datatype DiscoverParams = DiscoverParams(
    withGenres: Option<Scalar>,
    withCompanies: Option<Scalar>,
    sortBy: Option<string>,
    withKeywords: Option<string>,
    page: Option<int>)

  /** `...(value && { key: value.toString() })`. */
  function OptionalParam(key: string, value: Option<Scalar>): seq<(string, string)> {
    if value.Some? && value.value.IsTruthy() then [(key, value.value.Text())] else []
  }

  /** `params.get(key)`: the first value stored under `key`. */
  function ParamValue(q: seq<(string, string)>, key: string): Option<string> {
    if q == [] then None else if q[0].0 == key then Some(q[0].1) else ParamValue(q[1..], key)
  }

  lemma {:induction false} ParamValueConcat(a: seq<(string, string)>, b: seq<(string, string)>, key: string)
    ensures ParamValue(a + b, key) == if ParamValue(a, key).Some? then ParamValue(a, key) else ParamValue(b, key)
  {
    if a != [] {
      assert (a + b)[1..] == a[1..] + b;
      ParamValueConcat(a[1..], b, key);
    } else {
      assert a + b == b;
    }
  }

  lemma {:induction false} ParamValueAt(q: seq<(string, string)>, i: nat, key: string)
    requires i < |q| && q[i].0 == key
    requires forall j :: 0 <= j < i ==> q[j].0 != key
    ensures ParamValue(q, key) == Some(q[i].1)
  {
    if i > 0 {
      ParamValueAt(q[1..], i - 1, key);
    }
  }

  lemma {:induction false} ParamValueAbsent(q: seq<(string, string)>, key: string)
    requires forall j :: 0 <= j < |q| ==> q[j].0 != key
    ensures ParamValue(q, key).None?
  {
    if q != [] {
      ParamValueAbsent(q[1..], key);
    }
  }

  /** The parameters every discover request carries, in insertion order. */
  function DiscoverHead(kind: MediaType, p: DiscoverParams): seq<(string, string)> {
    [("language", "en-US"),
     ("include_adult", "false"),
     if kind.MovieType? then ("include_video", "false") else ("include_null_first_air_dates", "false"),
     ("page", IntToString(OrNumber(p.page, 1))),
     ("sort_by", OrText(p.sortBy, "popularity.desc"))]
  }

  /** `with_keywords`, a TV-only parameter. */
  function KeywordsParam(kind: MediaType, p: DiscoverParams): seq<(string, string)> {
    if kind.TvType? then OptionalParam("with_keywords", if p.withKeywords.Some? then Some(Str(p.withKeywords.value)) else None) else []
  }

  /** The `URLSearchParams` of `discoverMovies` (movie) and `discoverTV` (tv),
      in insertion order. */
  function DiscoverQuery(kind: MediaType, p: DiscoverParams): seq<(string, string)> {
    DiscoverHead(kind, p)
    + (OptionalParam("with_genres", p.withGenres)
    + (OptionalParam("with_companies", p.withCompanies)
    + KeywordsParam(kind, p)))
  }

  /** The discover defaults: page 1 and popularity order when unset or falsy,
      and never adult titles. */
  lemma DiscoverQueryDefaults(kind: MediaType, p: DiscoverParams)
    ensures var q := DiscoverQuery(kind, p);
      ParamValue(q, "page") == Some(IntToString(if p.page.Some? && p.page.value != 0 then p.page.value else 1)) &&
      ParamValue(q, "sort_by") == Some(if Truthy(p.sortBy) then p.sortBy.value else "popularity.desc") &&
      ParamValue(q, "include_adult") == Some("false")
  {
    var head := DiscoverHead(kind, p);
    var rest := DiscoverQuery(kind, p)[|head|..];
    assert DiscoverQuery(kind, p) == head + rest;
    ParamValueAt(head, 3, "page");
    ParamValueAt(head, 4, "sort_by");
    ParamValueAt(head, 1, "include_adult");
    ParamValueConcat(head, rest, "page");
    ParamValueConcat(head, rest, "sort_by");
    ParamValueConcat(head, rest, "include_adult");
  }

  /** The genre and studio filters are sent exactly when truthy, as text. */
  lemma DiscoverQueryFilters(kind: MediaType, p: DiscoverParams)
    ensures var q := DiscoverQuery(kind, p);
      (ParamValue(q, "with_genres").Some? <==> p.withGenres.Some? && p.withGenres.value.IsTruthy()) &&
      (ParamValue(q, "with_genres").Some? ==> ParamValue(q, "with_genres").value == p.withGenres.value.Text()) &&
      (ParamValue(q, "with_companies").Some? <==> p.withCompanies.Some? && p.withCompanies.value.IsTruthy()) &&
      (ParamValue(q, "with_companies").Some? ==> ParamValue(q, "with_companies").value == p.withCompanies.value.Text())
  {
    var head := DiscoverHead(kind, p);
    var g := OptionalParam("with_genres", p.withGenres);
    var c := OptionalParam("with_companies", p.withCompanies);
    var k := KeywordsParam(kind, p);
    ParamValueAbsent(head, "with_genres");
    ParamValueAbsent(head, "with_companies");
    ParamValueConcat(head, g + (c + k), "with_genres");
    ParamValueConcat(g, c + k, "with_genres");
    ParamValueAbsent(c + k, "with_genres");
    ParamValueConcat(head, g + (c + k), "with_companies");
    ParamValueConcat(g, c + k, "with_companies");
    ParamValueAbsent(g, "with_companies");
    ParamValueConcat(c, k, "with_companies");
    ParamValueAbsent(k, "with_companies");
  }

  /** Keywords are sent only for TV, and only when truthy. */
  lemma DiscoverQueryKeywords(kind: MediaType, p: DiscoverParams)
    ensures var q := DiscoverQuery(kind, p);
      (ParamValue(q, "with_keywords").Some? <==> kind.TvType? && Truthy(p.withKeywords)) &&
      (ParamValue(q, "with_keywords").Some? ==> ParamValue(q, "with_keywords").value == p.withKeywords.value)
  {
    var head := DiscoverHead(kind, p);
    var g := OptionalParam("with_genres", p.withGenres);
    var c := OptionalParam("with_companies", p.withCompanies);
    var k := KeywordsParam(kind, p);
    ParamValueAbsent(head, "with_keywords");
    ParamValueAbsent(g, "with_keywords");
    ParamValueAbsent(c, "with_keywords");
    ParamValueConcat(head, g + (c + k), "with_keywords");
    ParamValueConcat(g, c + k, "with_keywords");
    ParamValueConcat(c, k, "with_keywords");
  }

  /** `URLSearchParams.toString()`: form-encoded `key=value` pairs joined by `&`. */
  function QueryString(q: seq<(string, string)>): string {
    if q == [] then ""
    else if |q| == 1 then FormEncode(q[0].0) + "=" + FormEncode(q[0].1)
    else FormEncode(q[0].0) + "=" + FormEncode(q[0].1) + "&" + QueryString(q[1..])
  }

  function DiscoverUrl(kind: MediaType, p: DiscoverParams): string {
    BASE_URL + "/discover/" + kind.Path() + "?" + QueryString(DiscoverQuery(kind, p))
  }

  /** `discoverMovies` and `discoverTV` after building the URL. */
  function Discover(kind: MediaType, p: DiscoverParams, fetch: string -> Response<PageBody>): (r: Page)
    ensures !fetch(DiscoverUrl(kind, p)).Ok? ==> r == EMPTY_PAGE
    ensures r.totalPages == 0 <==> !fetch(DiscoverUrl(kind, p)).Ok?
    ensures fetch(DiscoverUrl(kind, p)).Ok? ==>
      var body := fetch(DiscoverUrl(kind, p)).body;
      r == Shape(body, body.results.GetOr([]))
  {
    match fetch(DiscoverUrl(kind, p))
    case Ok(body) => Shape(body, body.results.GetOr([]))
    case _ => EMPTY_PAGE
  }
}
