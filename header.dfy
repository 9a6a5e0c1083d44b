/** The page header: its title names the area of the system the URL belongs to. */
module Header {
  import opened JsValues

  /** The titles the header can show. */
  predicate KnownTitle(t: string)
  {
    t in {"Sistema de Estadísticas", "Inspectoría", "Emisiones", "Operaciones", "IHTT"}
  }

  /** The title `setTitle` gives a URL: the first area it names, in the order inspection,
      emissions, operations; the institution's name when it names none. */
  function TitleFor(url: string): (t: string)
    ensures KnownTitle(t) && t != "Sistema de Estadísticas"
  {
    if Contains(url, "inspection") then "Inspectoría"
    else if Contains(url, "emissions") then "Emisiones"
    else if Contains(url, "operations") then "Operaciones"
    else "IHTT"
  }

  class HeaderComponent {
    var title: string

    /** The header before the first navigation. */
    constructor()
      ensures title == "Sistema de Estadísticas" && KnownTitle(title)
    {
      title := "Sistema de Estadísticas";
    }

    /** `setTitle`: the first area the URL names, in the order inspection, emissions,
        operations; the institution's name when it names none. */
    method SetTitle(url: string)
      modifies this
      ensures title == TitleFor(url) && KnownTitle(title)
      ensures Contains(url, "inspection") ==> title == "Inspectoría"
      ensures !Contains(url, "inspection") && Contains(url, "emissions") ==> title == "Emisiones"
      ensures !Contains(url, "inspection") && !Contains(url, "emissions") && Contains(url, "operations") ==>
        title == "Operaciones"
      ensures !Contains(url, "inspection") && !Contains(url, "emissions") && !Contains(url, "operations") ==>
        title == "IHTT"
    {
      if Contains(url, "inspection") {
        title := "Inspectoría";
      } else if Contains(url, "emissions") {
        title := "Emisiones";
      } else if Contains(url, "operations") {
        title := "Operaciones";
      } else {
        title := "IHTT";
      }
    }
  }

  /** A URL that names two areas gets the title of the earlier case: an inspection page
      under operations is titled as an inspection page, not as an operations one. */
  lemma InspectionBeforeOperations(a: string, b: string)
    ensures var url := a + "operations" + b + "inspection";
      Contains(url, "operations") && TitleFor(url) == "Inspectoría"
  {
    var url := a + "operations" + b + "inspection";
    assert url[|a|..|a| + 10] == "operations";
    ContainsAt(url, "operations", |a|);
    assert url[|url| - 10..] == "inspection";
    ContainsAt(url, "inspection", |url| - 10);
  }
}
