/** The home screen's hero carousel: the featured slice, the rotation step,
    the colour theme and genre line of the current title, the logo choice and
    the My-List toggle. Timers and the image request are inputs. */
module Hero {
  import opened Common
  import opened Strings
  import opened Media
  import opened Ui
  import opened AuthContext

  /** At most this many titles are featured. */
  const FEATURED_COUNT: nat := 5

  /** `GENRE_MAP`: genre id to display name. */
  function GenreName(id: int): Option<string> {
    match id
    case 28 => Some("Action")
    case 12 => Some("Adventure")
    case 16 => Some("Animation")
    case 35 => Some("Comedy")
    case 80 => Some("Crime")
    case 99 => Some("Documentary")
    case 18 => Some("Drama")
    case 10751 => Some("Family")
    case 14 => Some("Fantasy")
    case 36 => Some("History")
    case 27 => Some("Horror")
    case 10402 => Some("Music")
    case 9648 => Some("Mystery")
    case 10749 => Some("Romance")
    case 878 => Some("Sci-Fi")
    case 10770 => Some("TV Movie")
    case 53 => Some("Thriller")
    case 10752 => Some("War")
    case 37 => Some("Western")
    case _ => None
  }

  /** `GENRE_COLORS`: genre id to its three gradient stops. */
  function GenreColors(id: int): Option<seq<string>> {
    match id
    case 28 => Some(["#8B0000", "#1a0a0a", "#0a0a0f"])
    case 12 => Some(["#2E7D32", "#0a1a0a", "#0a0a0f"])
    case 16 => Some(["#1565C0", "#0a0a1a", "#0a0a0f"])
    case 35 => Some(["#F9A825", "#1a1a0a", "#0a0a0f"])
    case 80 => Some(["#424242", "#1a1a1a", "#0a0a0f"])
    case 18 => Some(["#5D4037", "#1a0a0a", "#0a0a0f"])
    case 10751 => Some(["#7B1FA2", "#1a0a1a", "#0a0a0f"])
    case 14 => Some(["#6A1B9A", "#1a0a1a", "#0a0a0f"])
    case 27 => Some(["#1B5E20", "#0a1a0a", "#0a0a0f"])
    case 9648 => Some(["#37474F", "#0a1a1a", "#0a0a0f"])
    case 10749 => Some(["#C2185B", "#1a0a0a", "#0a0a0f"])
    case 878 => Some(["#0277BD", "#0a0a1a", "#0a0a0f"])
    case 53 => Some(["#263238", "#0a0a0a", "#0a0a0f"])
    case 10752 => Some(["#4E342E", "#1a0a0a", "#0a0a0f"])
    case 37 => Some(["#795548", "#1a1a0a", "#0a0a0f"])
    case _ => None
  }

  const DEFAULT_COLORS: seq<string> := ["#1a1a2e", "#0f3460", "#0a0a0f"]

  const GENRE_SEPARATOR: string := " \U{2022} "
  const LOGO_BASE_URL: string := "https://image.tmdb.org/t/p/w500"

  /** Every themed genre also has a name, every name is non-empty, and every
      theme is three stops fading into the page background. */
  lemma ThemeTables(id: int)
    ensures GenreColors(id).Some? ==> GenreName(id).Some?
    ensures GenreName(id).Some? ==> GenreName(id).value != ""
    ensures GenreColors(id).Some? ==> |GenreColors(id).value| == 3 && GenreColors(id).value[2] == "#0a0a0f"
  {
  }

  /** `getColorsForMovie`: the theme of the first genre id, if it has one. */
  function ColorsForMovie(m: Movie): (r: seq<string>)
    ensures |r| == 3 && r[2] == "#0a0a0f"
    ensures r != DEFAULT_COLORS ==> (m.genreIds.Some? && |m.genreIds.value| > 0 &&
      GenreColors(m.genreIds.value[0]) == Some(r))
    ensures m.genreIds.GetOr([]) == [] ==> r == DEFAULT_COLORS
    ensures m.genreIds.Some? && |m.genreIds.value| > 0 && GenreColors(m.genreIds.value[0]).None? ==> r == DEFAULT_COLORS
    ensures m.genreIds.Some? && |m.genreIds.value| > 0 && GenreColors(m.genreIds.value[0]).Some? ==>
      r == GenreColors(m.genreIds.value[0]).value
  {
    var ids := m.genreIds.GetOr([]);
    if |ids| > 0 && GenreColors(ids[0]).Some? then
      ThemeTables(ids[0]);
      GenreColors(ids[0]).value
    else DEFAULT_COLORS
  }

  /** The names of the known ids, in order, unknown ids dropped. */
  function KnownGenres(ids: seq<int>): (r: seq<string>)
    ensures |r| <= |ids|
    ensures forall k :: 0 <= k < |r| ==> r[k] != ""
    ensures forall id :: id in ids && GenreName(id).Some? ==> GenreName(id).value in r
    ensures r == [] <==> forall id :: id in ids ==> GenreName(id).None?
  {
    if ids == [] then []
    else
      var rest := KnownGenres(ids[1..]);
      assert forall id :: id in ids[1..] ==> id in ids;
      assert forall id :: id in ids ==> id == ids[0] || id in ids[1..];
      ThemeTables(ids[0]);
      if GenreName(ids[0]).Some? then [GenreName(ids[0]).value] + rest else rest
  }

  predicate IsKnown(id: int) {
    GenreName(id).Some?
  }

  /** Naming works id by id, in order: the names of a concatenation are the
      names of the first part followed by those of the second, ... */
  lemma {:induction false} KnownGenresConcat(a: seq<int>, b: seq<int>)
    ensures KnownGenres(a + b) == KnownGenres(a) + KnownGenres(b)
  {
    if a == [] {
      assert a + b == b;
    } else {
      assert (a + b)[0] == a[0];
      assert (a + b)[1..] == a[1..] + b;
      KnownGenresConcat(a[1..], b);
    }
  }

  /** ... and a single id gives its name if it has one, else nothing. */
  lemma KnownGenresSingle(id: int)
    ensures KnownGenres([id]) == if GenreName(id).Some? then [GenreName(id).value] else []
  {
    assert [id][1..] == [];
  }

  /** The first name is that of the first known id. */
  lemma {:induction false} KnownGenresHead(ids: seq<int>, i: nat)
    requires i < |ids| && IsKnown(ids[i])
    requires forall j :: 0 <= j < i ==> !IsKnown(ids[j])
    ensures KnownGenres(ids) != [] && KnownGenres(ids)[0] == GenreName(ids[i]).value
  {
    if i > 0 {
      KnownGenresHead(ids[1..], i - 1);
    }
  }

  /** `genreNames`: the first four genre ids, named, joined with " • ". */
  function GenreLine(m: Movie): string {
    JoinWith(KnownGenres(Take(m.genreIds.GetOr([]), 4)), GENRE_SEPARATOR)
  }

  /** The genre line is empty exactly when none of the first four ids is
      known, and otherwise begins with the name of the first known one. */
  lemma GenreLineShape(m: Movie)
    ensures var ids := Take(m.genreIds.GetOr([]), 4);
      (GenreLine(m) == "" <==> forall id :: id in ids ==> GenreName(id).None?) &&
      (FindIndex(ids, IsKnown).Some? ==> StartsWith(GenreLine(m), GenreName(ids[FindIndex(ids, IsKnown).value]).value))
  {
    var ids := Take(m.genreIds.GetOr([]), 4);
    var names := KnownGenres(ids);
    if names != [] {
      assert names[0] != "";
      assert |GenreLine(m)| >= |names[0]| > 0;
    }
    var first := FindIndex(ids, IsKnown);
    if first.Some? {
      KnownGenresHead(ids, first.value);
    }
  }

  /** The title shown: `title || name || "Unknown"`. */
  function DisplayTitle(m: Movie): (r: string)
    ensures r != ""
    ensures Truthy(m.title) ==> r == m.title.value
    ensures !Truthy(m.title) && Truthy(m.name) ==> r == m.name.value
    ensures !Truthy(m.title) && !Truthy(m.name) ==> r == "Unknown"
  {
    OrText(m.title, OrText(m.name, "Unknown"))
  }

  /** An entry of the `/images` response's `logos`. */
  datatype Logo = Logo(language: Option<string>, filePath: string)

  predicate IsEnglish(l: Logo) {
    l.language == Some("en")
  }

  /** The logo `fetchLogo` shows: the first English one, else the first one. */
  function ChooseLogo(logos: Option<seq<Logo>>): (r: Option<Logo>)
    ensures r.None? <==> logos.GetOr([]) == []
    ensures r.Some? ==> r.value in logos.value
    ensures (exists l :: l in logos.GetOr([]) && IsEnglish(l)) ==>
      r.Some? && IsEnglish(r.value) && FindIndex(logos.value, IsEnglish).Some? &&
      r.value == logos.value[FindIndex(logos.value, IsEnglish).value]
    ensures r.Some? && !(exists l :: l in logos.value && IsEnglish(l)) ==> r.value == logos.value[0]
  {
    var ls := logos.GetOr([]);
    var i := FindIndex(ls, IsEnglish);
    if i.Some? then Some(ls[i.value])
    else if |ls| > 0 then Some(ls[0])
    else None
  }

  /** The `logoUrl` `fetchLogo` stores for the outcome of the image request. */
  function LogoUrl(images: Sdk<Option<seq<Logo>>>): (r: Option<string>)
    ensures r.Some? <==> images.Done? && images.value.GetOr([]) != []
    ensures r.Some? ==> (StartsWith(r.value, LOGO_BASE_URL) &&
      r.value == LOGO_BASE_URL + ChooseLogo(images.value).value.filePath)
  {
    if images.Threw? then None
    else
      var logo := ChooseLogo(images.value);
      if logo.Some? then Some(LOGO_BASE_URL + logo.value.filePath) else None
  }

  /** One interval step: the next index, wrapping to the first. */
  function Rotate(i: int, n: nat): int
    requires n > 0
  {
    (i + 1) % n
  }

  /** `k` interval steps. */
  function RotateTimes(i: int, k: nat, n: nat): int
    requires n > 0
  {
    if k == 0 then i else Rotate(RotateTimes(i, k - 1, n), n)
  }

  lemma ModSucc(a: int, n: nat)
    requires n > 0
    ensures (a % n + 1) % n == (a + 1) % n
  {
    var q := a / n;
    assert a == n * q + a % n;
    assert a + 1 == n * q + (a % n + 1);
    ModShift(a % n + 1, q, n);
  }

  lemma ModShift(b: int, q: int, n: nat)
    requires n > 0
    ensures (n * q + b) % n == b % n
  {
    var c := b / n;
    assert b == n * c + b % n;
    assert n * q + b == n * (q + c) + b % n;
    DivUnique(n * q + b, n, q + c, b % n);
  }

  /** After `k >= 1` steps from `i` the carousel shows `(i + k) mod n`, so
      it visits every featured title in turn and `n` steps return to the start. */
  lemma {:induction false} RotateTimesIsMod(i: int, k: nat, n: nat)
    requires n > 0 && k > 0
    ensures RotateTimes(i, k, n) == (i + k) % n
    ensures 0 <= RotateTimes(i, k, n) < n
  {
    if k > 1 {
      RotateTimesIsMod(i, k - 1, n);
      ModSucc(i + k - 1, n);
    }
  }

  /** A full round from a shown index comes back to it. */
  lemma RotateFullRound(i: int, n: nat)
    requires 0 <= i < n
    ensures RotateTimes(i, n, n) == i
  {
    RotateTimesIsMod(i, n, n);
    DivUnique(i + n, n, 1, i);
    assert i + n == n * ((i + n) / n) + (i + n) % n;
  }

  const RESTRICTED: Toast := ErrorToast("Restricted", "Verify your phone number to save content.")

  /** The carousel's state: the `movies` prop, `currentIndex` and `logoUrl`. */
  class HeroCarousel {
    var movies: seq<Movie>
    var currentIndex: int
    var logoUrl: Option<string>

    constructor (movies: seq<Movie>)
      ensures this.movies == movies && currentIndex == 0 && logoUrl.None?
    {
      this.movies := movies;
      currentIndex := 0;
      logoUrl := None;
    }

    /** `featuredMovies`. */
    function Featured(): (r: seq<Movie>)
      reads this
      ensures |r| <= FEATURED_COUNT && r <= movies
      ensures |movies| >= FEATURED_COUNT ==> |r| == FEATURED_COUNT
      ensures |movies| < FEATURED_COUNT ==> r == movies
    {
      Take(movies, FEATURED_COUNT)
    }

    /** `movie`: the featured title at the current index, when there is one. */
    function Current(): (r: Option<Movie>)
      reads this
      ensures r.Some? <==> 0 <= currentIndex < |Featured()|
      ensures r.Some? ==> r.value == movies[currentIndex]
    {
      if 0 <= currentIndex < |Featured()| then Some(Featured()[currentIndex]) else None
    }

    /** The interval callback, scheduled only when more than one title is
        featured. The index is never negative (it starts at 0 and the dots
        set their own positions), so JavaScript's `%` and Dafny's agree. */
    method Tick()
      requires |Featured()| > 1 && currentIndex >= 0
      modifies this`currentIndex
      ensures currentIndex == Rotate(old(currentIndex), |Featured()|)
      ensures Current().Some?
    {
      currentIndex := (currentIndex + 1) % |Featured()|;
    }

    /** `handleDotPress(index)` (restarting the timer aside), pressed on
        one of the dots, which are drawn one per featured title. */
    method HandleDotPress(index: int)
      requires 0 <= index < |Featured()|
      modifies this`currentIndex
      ensures currentIndex == index && Current() == Some(movies[index])
    {
      currentIndex := index;
    }

    /** `fetchLogo`, given the outcome of the image request. */
    method FetchLogo(images: Sdk<Option<seq<Logo>>>)
      modifies this`logoUrl
      ensures logoUrl == LogoUrl(images)
    {
      match images
      case Threw(_) =>
        logoUrl := None;
      case Done(logos) =>
        var logo := ChooseLogo(logos);
        if logo.Some? {
          logoUrl := Some(LOGO_BASE_URL + logo.value.filePath);
        } else {
          logoUrl := None;
        }
    }

    /** `handleMyList()`: nothing without a title or a user, a toast for a
        guest, else the current title leaves the list if it is in it and
        joins it otherwise. */
    method HandleMyList(auth: AuthProvider, written: Sdk<()>) returns (toast: Option<Toast>, r: Sdk<()>)
      modifies auth`users
      ensures Current().None? || auth.user.None? ==> toast.None? && r == Done(()) && auth.users == old(auth.users)
      ensures Current().Some? && auth.user.Some? && auth.userData.Some? && auth.userData.value.isGuest == Some(true) ==>
        toast == Some(RESTRICTED) && r == Done(()) && auth.users == old(auth.users)
      ensures Current().Some? && auth.user.Some? && !(auth.userData.Some? && auth.userData.value.isGuest == Some(true)) ==>
        toast.None? && r == written
      ensures (Current().Some? && auth.user.Some? && !(auth.userData.Some? && auth.userData.value.isGuest == Some(true)) &&
        written.Threw?) ==> auth.users == old(auth.users)
      ensures (Current().Some? && auth.user.Some? && !(auth.userData.Some? && auth.userData.value.isGuest == Some(true)) &&
        written.Done?) ==>
        auth.user.value in auth.users &&
        (forall uid :: uid in old(auth.users) && uid != auth.user.value ==> uid in auth.users && auth.users[uid] == old(auth.users)[uid]) &&
        (!auth.IsInMyList(Current().value.id) ==>
          StoredList(auth.users, auth.user.value) == Some(ArrayUnion(StoredList(old(auth.users), auth.user.value), Current().value))) &&
        (auth.IsInMyList(Current().value.id) ==>
          RemovalTarget(auth.userData, Current().value.id).Some? &&
          StoredList(auth.users, auth.user.value) ==
            Some(ArrayRemove(StoredList(old(auth.users), auth.user.value), RemovalTarget(auth.userData, Current().value.id).value)))
    {
      var movie := Current();
      r := Done(());
      if movie.None? || auth.user.None? {
        return None, r;
      }
      if auth.userData.Some? && auth.userData.value.isGuest == Some(true) {
        return Some(RESTRICTED), r;
      }
      toast := None;
      if auth.IsInMyList(movie.value.id) {
        assert RemovalTarget(auth.userData, movie.value.id).Some?;
        r := auth.RemoveFromMyList(movie.value.id, written);
      } else {
        r := auth.AddToMyList(movie.value, written);
      }
    }
  }
}
