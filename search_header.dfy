/** The header of the search tab: when the "Back to Browse" button and the
    results header appear, and which title and count the results header
    shows. Everything is a choice over the props the search screen passes. */
module SearchHeader {
  import opened Common

  /** The three states the search screen is in. */
  datatype ViewMode = Categories | Search | Genre

  /** A browse category; only its name reaches the header. */
  datatype Category = Category(id: int, name: string)

  /** The props that decide what the header shows (the query text and the
      callbacks only pass through to the search bar). */
  datatype HeaderProps = HeaderProps(
    viewMode: ViewMode,
    genreId: Option<string>,
    companyId: Option<string>,
    category: Option<string>,
    loading: bool,
    moviesLength: nat,
    totalResults: int,
    resultTitle: string,
    selectedCategory: Option<Category>)

  /** The results are narrowed by a genre, a studio or a category. */
  predicate HasFilter(p: HeaderProps) {
    Truthy(p.genreId) || Truthy(p.companyId) || Truthy(p.category)
  }

  /** `showBackButton`. */
  function ShowBackButton(p: HeaderProps): (r: bool)
    ensures p.viewMode == Categories ==> !r
    ensures p.viewMode == Genre ==> r
    ensures p.viewMode == Search ==> (r <==> HasFilter(p))
  {
    p.viewMode == Genre || (p.viewMode == Search && HasFilter(p))
  }

  /** Whether the results header (title and count) is rendered. */
  function ShowResultsHeader(p: HeaderProps): (r: bool)
    ensures r <==> p.viewMode != Categories && p.moviesLength > 0 && !p.loading
  {
    p.viewMode != Categories && p.moviesLength > 0 && !p.loading
  }

  /** The results title. */
  function ResultsTitle(p: HeaderProps): (r: string)
    ensures p.viewMode == Genre && p.selectedCategory.Some? ==> r == p.selectedCategory.value.name
    ensures !(p.viewMode == Genre && p.selectedCategory.Some?) ==> r != "" && (p.resultTitle != "" ==> r == p.resultTitle)
    ensures !(p.viewMode == Genre && p.selectedCategory.Some?) && p.resultTitle == "" ==> r == "Results"
  {
    if p.viewMode == Genre && p.selectedCategory.Some? then p.selectedCategory.value.name
    else if p.resultTitle != "" then p.resultTitle
    else "Results"
  }

  /** The count badge: the server's total, formatted for the locale, when it
      is positive, else the number of loaded titles as plain digits. */
  datatype CountLabel = Localized(n: int) | Plain(n: int)

  function ResultsCount(p: HeaderProps): (c: CountLabel)
    ensures c.Localized? <==> p.totalResults > 0
    ensures c.n == (if p.totalResults > 0 then p.totalResults else p.moviesLength)
  {
    if p.totalResults > 0 then Localized(p.totalResults) else Plain(p.moviesLength)
  }

  /** The browse grid shows neither the back button nor a results header. */
  lemma BrowseHasNoResultsChrome(p: HeaderProps)
    requires p.viewMode == Categories
    ensures !ShowBackButton(p) && !ShowResultsHeader(p)
  {
  }

  /** Whenever the results header is shown, its badge shows a positive
      number: a zero or missing server total falls back to the loaded
      titles, of which there is at least one. */
  lemma ShownCountIsPositive(p: HeaderProps)
    requires ShowResultsHeader(p)
    ensures ResultsCount(p).n > 0
    ensures ResultsCount(p).Plain? ==> ResultsCount(p).n == p.moviesLength
  {
  }

  /** A plain text search is not a drill-down: it has no back button, while
      the same results reached through a genre, studio or category have one. */
  lemma BackButtonMarksDrillDown(p: HeaderProps, id: string)
    requires p.viewMode == Search && id != ""
    ensures !HasFilter(p) ==> !ShowBackButton(p)
    ensures ShowBackButton(p.(genreId := Some(id)))
    ensures ShowBackButton(p.(companyId := Some(id)))
    ensures ShowBackButton(p.(category := Some(id)))
  {
  }
}
