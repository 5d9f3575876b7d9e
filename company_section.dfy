/** The "Studios" row: the studio table and where a studio press leads.
    Studios that TMDB models as curated lists are searched by list id, the
    rest by production-company id. */
module CompanySection {
  import opened Ui

  datatype StudioKind = CompanyStudio | ListStudio

  /** A studio card (its picture aside). */
  datatype Studio = Studio(key: string, id: int, name: string, kind: StudioKind)

  const STUDIOS: seq<Studio> := [
    Studio("dc", 94805, "DC Movies", ListStudio),
    Studio("pixar", 3, "Pixar", CompanyStudio),
    Studio("marvel", 420, "Marvel", CompanyStudio),
    Studio("disney", 6125, "Disney", CompanyStudio),
    Studio("warner", 174, "Warner Bros", CompanyStudio),
    Studio("dreamworks", 521, "DreamWorks", CompanyStudio),
    Studio("mgm", 21, "Metro Goldwyn", CompanyStudio),
    Studio("toei", 5542, "Toei Animation", CompanyStudio),
    Studio("century20", 127928, "20th Century", CompanyStudio),
    Studio("hulu", 8300044, "Hulu", ListStudio),
    Studio("apple", 8300049, "Apple TV+", ListStudio),
    Studio("amazon", 20580, "Prime Video", CompanyStudio)]

  /** The parameter that carries a studio's id. */
  function IdParam(kind: StudioKind): string {
    if kind == ListStudio then "listId" else "companyId"
  }

  /** `handleStudioPress(studio)`. */
  function HandleStudioPress(studio: Studio): (n: Navigation)
    ensures n.pathname == "/search"
    ensures n.params.Keys == {IdParam(studio.kind), "studioName"}
    ensures "listId" in n.params <==> studio.kind == ListStudio
    ensures "companyId" in n.params <==> studio.kind == CompanyStudio
    ensures n.params[IdParam(studio.kind)] == Number(studio.id)
    ensures n.params["studioName"] == Text(studio.name)
  {
    if studio.kind == ListStudio then
      Navigation("/search", map["listId" := Number(studio.id), "studioName" := Text(studio.name)])
    else
      Navigation("/search", map["companyId" := Number(studio.id), "studioName" := Text(studio.name)])
  }

  /** Exactly DC Movies, Hulu and Apple TV+ are searched as lists. */
  lemma ListStudiosAreExactly(s: Studio)
    requires s in STUDIOS
    ensures s.kind == ListStudio <==> s.name in {"DC Movies", "Hulu", "Apple TV+"}
  {
  }

  /** The table's keys and ids are unique. */
  lemma StudiosAreDistinct()
    ensures forall i, j :: 0 <= i < j < |STUDIOS| ==> STUDIOS[i].key != STUDIOS[j].key && STUDIOS[i].id != STUDIOS[j].id
  {
  }

  /** A press carries the pressed studio's id and no other studio's: two
      different studios of the table never lead to the same search. */
  lemma PressIdentifiesStudio(i: int, j: int)
    requires 0 <= i < j < |STUDIOS|
    ensures HandleStudioPress(STUDIOS[i]) != HandleStudioPress(STUDIOS[j])
  {
    StudiosAreDistinct();
    var a, b := STUDIOS[i], STUDIOS[j];
    if a.kind == b.kind {
      assert HandleStudioPress(a).params[IdParam(a.kind)] == Number(a.id);
      assert HandleStudioPress(b).params[IdParam(a.kind)] == Number(b.id);
    } else {
      assert IdParam(a.kind) in HandleStudioPress(a).params.Keys;
      assert IdParam(a.kind) !in HandleStudioPress(b).params.Keys;
    }
  }
}
