/** The incremental loading shared by the four details views. Each keeps the records loaded
    so far, a backend-page cursor, the backend's total, a loading flag, a display page of nine
    rows and the parameters of the last search (`globalParams`). A load asks for
    `{ paginated, page: backendPage, ...globalParams }` without its `undefined` entries; a
    successful load appends the page it receives. */
module Paging {
  import opened JsValues
  import opened QueryParams

  /** `itemsPerPage` of every details view. */
  const ItemsPerPage: int := 9

  /** The test of `updateDisplayed…`: the display window `[(page - 1) * 9, (page - 1) * 9 + 9)`
      reaches the end of the loaded records, the backend holds more, and no load is running. */
  predicate NeedsMore(page: int, loaded: nat, total: int, isLoading: bool)
  {
    (page - 1) * ItemsPerPage + ItemsPerPage >= loaded && loaded < total && !isLoading
  }

  /** The cursor after a successful load: one page further while records remain. */
  function NextBackendPage(backendPage: int, loaded: nat, total: int): (r: int)
    ensures loaded < total ==> r == backendPage + 1
    ensures loaded >= total ==> r == backendPage
  {
    if loaded < total then backendPage + 1 else backendPage
  }

  /** `{ paginated, page: this.backendPage }` */
  function BaseParams(paginated: JsValue, backendPage: int): Entries
  {
    [("paginated", paginated), ("page", Num(backendPage))]
  }

  /** The parameters a load sends: the base parameters overridden by the stored ones, with
      the `undefined` entries removed. */
  function LoadRequest(paginated: JsValue, backendPage: int, globalParams: Entries): Entries
  {
    DropUndefined(Spread(BaseParams(paginated, backendPage), globalParams))
  }

  /** Reading a parameter of a load request: the stored value when the stored parameters
      have the key, the base value otherwise; a parameter is sent exactly when that value is
      not `undefined`. */
  lemma LoadRequestLookup(paginated: JsValue, backendPage: int, globalParams: Entries, k: string)
    requires DistinctKeys(globalParams)
    ensures Lookup(LoadRequest(paginated, backendPage, globalParams), k)
      == if HasKey(globalParams, k) then Lookup(globalParams, k) else Lookup(BaseParams(paginated, backendPage), k)
    ensures HasKey(LoadRequest(paginated, backendPage, globalParams), k)
      <==> Lookup(LoadRequest(paginated, backendPage, globalParams), k) != Undefined
    ensures DistinctKeys(LoadRequest(paginated, backendPage, globalParams))
  {
    var base := BaseParams(paginated, backendPage);
    var spread := Spread(base, globalParams);
    SpreadDistinct(base, globalParams);
    SpreadLookup(base, globalParams, k);
    DropUndefinedLookup(spread, k);
    FilterDistinct(spread, IsDefined);
  }

  /** Before any search nothing is stored, so a load asks for the cursor's page. */
  lemma FirstLoadFollowsCursor(paginated: JsValue, backendPage: int)
    ensures Lookup(LoadRequest(paginated, backendPage, []), "page") == Num(backendPage)
  {
    LoadRequestLookup(paginated, backendPage, [], "page");
  }

  /** Once the stored parameters hold `page: 1`, every load asks for page 1 whatever the
      cursor says: the stored page overrides `backendPage`. */
  lemma StoredPageOverridesCursor(paginated: JsValue, backendPage: int, globalParams: Entries)
    requires DistinctKeys(globalParams) && Lookup(globalParams, "page") == Num(1)
    ensures Lookup(LoadRequest(paginated, backendPage, globalParams), "page") == Num(1)
    ensures HasKey(LoadRequest(paginated, backendPage, globalParams), "page")
  {
    LoadRequestLookup(paginated, backendPage, globalParams, "page");
  }
}
