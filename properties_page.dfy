/**
 * The public listing page (pages/Properties.js): the responsive page size, the
 * choice between a plain page request and a search, the filters applied to
 * the answer, and the Prev/Next pager.
 */
module PropertiesPage {
  import opened Wrappers
  import opened Text
  import opened Lists
  import opened Listing

  /** `getPageSize`: 15 cards on wide screens, 9 on medium ones, 5 otherwise. */
  function PageSize(width: int): (r: int)
    ensures r == 5 || r == 9 || r == 15
    ensures width >= 1024 <==> r == 15
    ensures width < 600 <==> r == 5
  {
    if width >= 1024 then 15 else if width >= 600 then 9 else 5
  }

  /** A wider window never shows fewer cards per page. */
  lemma {:induction false} PageSizeMonotone(w1: int, w2: int)
    requires w1 <= w2
    ensures PageSize(w1) <= PageSize(w2)
  {
  }

  datatype Filters = Filters(city: string, minPrice: string, maxPrice: string, bedrooms: string, bathrooms: string)

  /** `hasFilter`: some filter field is filled in, or the search text is not blank. */
  predicate HasFilter(f: Filters, searchQuery: string): (r: bool)
    ensures !r <==> f == Filters("", "", "", "", "") && IsBlank(searchQuery)
  {
    f.city != "" || f.minPrice != "" || f.maxPrice != "" || f.bedrooms != "" || f.bathrooms != ""
    || !IsBlank(searchQuery)
  }

  /** Only blanks in the search box do not switch to search mode by themselves. */
  lemma {:induction false} BlankQueryIsNoFilter(f: Filters, searchQuery: string)
    requires IsBlank(searchQuery)
    ensures HasFilter(f, searchQuery) <==> f != Filters("", "", "", "", "")
  {
  }

  /** The body of a `searchProperty` call. */
  datatype SearchParams = SearchParams(
    city: Option<string>, kind: Option<string>,
    minPrice: Option<JsNumber>, maxPrice: Option<JsNumber>,
    bedrooms: Option<JsNumber>, bathrooms: Option<JsNumber>,
    page: int, size: int)

  /** `v ? Number(v) : null`. */
  function NumberOrNull(v: string): (r: Option<JsNumber>)
    ensures r.None? <==> v == ""
  {
    if v == "" then None else Some(ToNumber(v))
  }

  /** Empty fields go as null, numeric fields through `Number`, the type always null; page and size as they are. */
  function BuildSearchParams(f: Filters, page: int, size: int): (r: SearchParams)
    ensures r.kind.None? && r.page == page && r.size == size
    ensures r.city.None? <==> f.city == ""
    ensures r.city.Some? ==> r.city.value == f.city
    ensures r.minPrice == NumberOrNull(f.minPrice) && r.maxPrice == NumberOrNull(f.maxPrice)
    ensures r.bedrooms == NumberOrNull(f.bedrooms) && r.bathrooms == NumberOrNull(f.bathrooms)
  {
    SearchParams(if f.city == "" then None else Some(f.city), None,
                 NumberOrNull(f.minPrice), NumberOrNull(f.maxPrice),
                 NumberOrNull(f.bedrooms), NumberOrNull(f.bathrooms), page, size)
  }

  /** A field typed as a number reaches the back end as that number. */
  lemma {:induction false} NumericFieldRoundTrip(f: Filters, n: int, page: int, size: int)
    requires f.minPrice == IntToString(n)
    ensures BuildSearchParams(f, page, size).minPrice == Some(Finite(n))
  {
    NumberOfString(n);
  }

  // ------------------------------------------------ the filter chain

  /** `?type=sale` and `?type=rent` restrict the listing type; any other value does not. */
  predicate TypeMatches(filterType: Option<string>, p: Property) {
    (filterType == Some("sale") ==> p.listingType == Some("sale"))
    && (filterType == Some("rent") ==> p.listingType == Some("rent"))
  }

  function TextFields(p: Property): seq<Option<string>> {
    [p.title, p.description, CityOf(p), AreaOf(p)]
  }

  /** Some present, non-empty field among title, description, city and area contains `q` once lower-cased. */
  predicate MatchesQuery(p: Property, q: string) {
    exists i :: 0 <= i < 4 && TruthyText(TextFields(p)[i]) && Includes(ToLower(TextFields(p)[i].value), q)
  }


  function OfType(filterType: Option<string>): Property -> bool {
    p => TypeMatches(filterType, p)
  }

  function Matching(q: string): Property -> bool {
    p => MatchesQuery(p, q)
  }

  /** Everything the search branch asks of a listing it shows. */
  predicate Shown(p: Property, filterType: Option<string>, searchQuery: string) {
    IsApproved(p) && TypeMatches(filterType, p)
    && (!IsBlank(searchQuery) ==> MatchesQuery(p, ToLower(searchQuery)))
  }

  function ShownFn(filterType: Option<string>, searchQuery: string): Property -> bool {
    p => Shown(p, filterType, searchQuery)
  }

  /**
   * The search branch's chain of reassignments of `data`: approved only, then
   * the type, then (when the search text is not blank) the lower-cased,
   * untrimmed query. It equals one filter by all conditions together.
   */
  method SearchResults(body: Body<Property>, filterType: Option<string>, searchQuery: string) returns (data: seq<Property>)
    ensures data == Keep(Rows(body), ShownFn(filterType, searchQuery))
    ensures IsSubsequence(data, Rows(body))
  {
    var fetched := Rows(body);
    data := Keep(fetched, ApprovedFn());
    data := Keep(data, OfType(filterType));
    KeepKeep(fetched, ApprovedFn(), OfType(filterType), ShownFn(filterType, ""));
    if !IsBlank(searchQuery) {
      var q := ToLower(searchQuery);
      data := Keep(data, Matching(q));
      KeepKeep(fetched, ShownFn(filterType, ""), Matching(q), ShownFn(filterType, searchQuery));
    } else {
      KeepSame(fetched, ShownFn(filterType, ""), ShownFn(filterType, searchQuery));
    }
    KeepIsSubsequence(fetched, ShownFn(filterType, searchQuery));
  }

  /** The plain branch: `content || []`, approved only, then the type. */
  method PageResults(body: Body<Property>, filterType: Option<string>) returns (data: seq<Property>)
    ensures data == Keep(ContentOrEmpty(body), ShownFn(filterType, ""))
    ensures IsSubsequence(data, ContentOrEmpty(body))
  {
    var fetched := ContentOrEmpty(body);
    data := Keep(fetched, ApprovedFn());
    data := Keep(data, OfType(filterType));
    KeepKeep(fetched, ApprovedFn(), OfType(filterType), ShownFn(filterType, ""));
    KeepIsSubsequence(fetched, ShownFn(filterType, ""));
  }

  /** A listing is shown exactly when it was fetched and meets every condition. */
  lemma {:induction false} ShownExactly(fetched: seq<Property>, filterType: Option<string>, searchQuery: string)
    ensures forall i :: 0 <= i < |Keep(fetched, ShownFn(filterType, searchQuery))| ==>
              Shown(Keep(fetched, ShownFn(filterType, searchQuery))[i], filterType, searchQuery)
    ensures forall i :: 0 <= i < |fetched| && Shown(fetched[i], filterType, searchQuery) ==>
              fetched[i] in Keep(fetched, ShownFn(filterType, searchQuery))
  {
    KeepMembers(fetched, ShownFn(filterType, searchQuery));
    var r := Keep(fetched, ShownFn(filterType, searchQuery));
    assert forall i :: 0 <= i < |r| ==> ShownFn(filterType, searchQuery)(r[i]);
  }

  /** With `?type=sale`, no rental is ever shown, and the other way round. */
  lemma {:induction false} TypeFilterExcludes(p: Property, searchQuery: string)
    ensures Shown(p, Some("sale"), searchQuery) ==> p.listingType == Some("sale")
    ensures Shown(p, Some("rent"), searchQuery) ==> p.listingType == Some("rent")
    ensures forall t :: t != Some("sale") && t != Some("rent") ==> TypeMatches(t, p)
  {
  }

  /** The request `loadData` issues, with what the answer handler will read from the closure. */
  datatype Request =
    | Search(params: SearchParams, filterType: Option<string>, searchQuery: string)
    | GetPage(page: int, size: int, filterType: Option<string>)

  /** The request `loadData` builds from the page's state. */
  function RequestFor(filters: Filters, searchQuery: string, page: int, pageSize: int, filterType: Option<string>): (r: Request)
    ensures r.Search? <==> HasFilter(filters, searchQuery)
    ensures r.Search? ==> r == Search(BuildSearchParams(filters, page, pageSize), filterType, searchQuery)
    ensures r.GetPage? ==> r == GetPage(page, pageSize, filterType)
  {
    if HasFilter(filters, searchQuery) then Search(BuildSearchParams(filters, page, pageSize), filterType, searchQuery)
    else GetPage(page, pageSize, filterType)
  }

  class PropertiesPage {
    var list: seq<Property>
    var loading: bool
    var page: int
    var totalPages: int
    var pageSize: int
    var filters: Filters
    var searchQuery: string
    var filterType: Option<string>

    ghost predicate Valid()
      reads this
    {
      page >= 0 && totalPages != 0
    }

    constructor(width: int, typeParam: Option<string>)
      ensures Valid() && list == [] && loading && page == 0 && totalPages == 1
      ensures pageSize == PageSize(width) && filterType == typeParam
      ensures filters == Filters("", "", "", "", "") && searchQuery == ""
    {
      list := [];
      loading := true;
      page := 0;
      totalPages := 1;
      pageSize := PageSize(width);
      filters := Filters("", "", "", "", "");
      searchQuery := "";
      filterType := typeParam;
    }

    /** The synchronous part of `loadData`: the request is a search exactly when some filter is set. */
    method LoadData() returns (req: Request)
      modifies this
      ensures loading
      ensures req == RequestFor(filters, searchQuery, page, pageSize, filterType)
      ensures list == old(list) && page == old(page) && totalPages == old(totalPages) && pageSize == old(pageSize)
      ensures filters == old(filters) && searchQuery == old(searchQuery) && filterType == old(filterType)
    {
      loading := true;
      req := RequestFor(filters, searchQuery, page, pageSize, filterType);
    }

    /**
     * The answer to a request: the filtered list and `totalPages || 1`. A
     * rejected request has no handler, so only `loading` is reset.
     */
    method Receive(req: Request, answer: Remote<Body<Property>>)
      requires Valid()
      modifies this
      ensures Valid() && !loading
      ensures answer.Ok? && req.Search? ==> list == Keep(Rows(answer.value), ShownFn(req.filterType, req.searchQuery))
      ensures answer.Ok? && req.GetPage? ==> list == Keep(ContentOrEmpty(answer.value), ShownFn(req.filterType, ""))
      ensures answer.Ok? ==> totalPages == TotalPagesOrOne(answer.value)
      ensures answer.Failed? ==> list == old(list) && totalPages == old(totalPages)
      ensures page == old(page) && pageSize == old(pageSize)
      ensures filters == old(filters) && searchQuery == old(searchQuery) && filterType == old(filterType)
    {
      if answer.Ok? {
        if req.Search? {
          list := SearchResults(answer.value, req.filterType, req.searchQuery);
        } else {
          list := PageResults(answer.value, req.filterType);
        }
        totalPages := TotalPagesOrOne(answer.value);
      }
      loading := false;
    }

    /**
     * Prev: disabled on the first page. The effect on `[page, filterType,
     * pageSize]` runs `loadData` again exactly when the page changed; its
     * request is returned, and `Receive` takes the answer.
     */
    method Prev() returns (reload: Option<Request>)
      requires Valid()
      modifies this
      ensures Valid()
      ensures page == if old(page) == 0 then 0 else old(page) - 1
      ensures old(page) < totalPages ==> page < totalPages
      ensures reload.Some? <==> page != old(page)
      ensures reload.Some? ==> loading && reload.value == RequestFor(filters, searchQuery, page, pageSize, filterType)
      ensures reload.None? ==> loading == old(loading)
      ensures list == old(list) && totalPages == old(totalPages)
      ensures pageSize == old(pageSize) && filters == old(filters) && searchQuery == old(searchQuery) && filterType == old(filterType)
    {
      reload := None;
      if page != 0 {
        page := page - 1;
        var req := LoadData();
        reload := Some(req);
      }
    }

    /**
     * Next: disabled once `page + 1 >= totalPages`, so it never leaves the known
     * pages. A page change runs `loadData` again, as for Prev.
     */
    method Next() returns (reload: Option<Request>)
      requires Valid()
      modifies this
      ensures Valid()
      ensures page == if old(page) + 1 >= totalPages then old(page) else old(page) + 1
      ensures old(page) < totalPages ==> page < totalPages
      ensures reload.Some? <==> page != old(page)
      ensures reload.Some? ==> loading && reload.value == RequestFor(filters, searchQuery, page, pageSize, filterType)
      ensures reload.None? ==> loading == old(loading)
      ensures list == old(list) && totalPages == old(totalPages)
      ensures pageSize == old(pageSize) && filters == old(filters) && searchQuery == old(searchQuery) && filterType == old(filterType)
    {
      reload := None;
      if page + 1 < totalPages {
        page := page + 1;
        var req := LoadData();
        reload := Some(req);
      }
    }

    /**
     * Typing in the search box: the effect on `[searchQuery]` runs `loadData`
     * again whenever the text changed.
     */
    method TypeQuery(query: string) returns (reload: Option<Request>)
      modifies this
      ensures searchQuery == query
      ensures reload.Some? <==> query != old(searchQuery)
      ensures reload.Some? ==> loading && reload.value == RequestFor(filters, query, page, pageSize, filterType)
      ensures reload.None? ==> loading == old(loading)
      ensures list == old(list) && page == old(page) && totalPages == old(totalPages)
      ensures pageSize == old(pageSize) && filters == old(filters) && filterType == old(filterType)
    {
      reload := None;
      if query != searchQuery {
        searchQuery := query;
        var req := LoadData();
        reload := Some(req);
      }
    }

    /**
     * The filter bar's `setFilters`. `filters` is in no effect's dependencies,
     * so nothing is fetched: the new filters take effect at the next reload.
     */
    method SetFilters(f: Filters)
      modifies this
      ensures filters == f
      ensures list == old(list) && loading == old(loading) && page == old(page) && totalPages == old(totalPages)
      ensures pageSize == old(pageSize) && searchQuery == old(searchQuery) && filterType == old(filterType)
    {
      filters := f;
    }

    /**
     * The window is resized. A new page size runs `loadData` again, as for
     * Prev; a resize within the same band requests nothing.
     */
    method Resize(width: int) returns (reload: Option<Request>)
      modifies this
      ensures pageSize == PageSize(width)
      ensures reload.Some? <==> pageSize != old(pageSize)
      ensures reload.Some? ==> loading && reload.value == RequestFor(filters, searchQuery, page, pageSize, filterType)
      ensures reload.None? ==> loading == old(loading)
      ensures list == old(list) && page == old(page) && totalPages == old(totalPages)
      ensures filters == old(filters) && searchQuery == old(searchQuery) && filterType == old(filterType)
    {
      reload := None;
      if PageSize(width) != pageSize {
        pageSize := PageSize(width);
        var req := LoadData();
        reload := Some(req);
      }
    }
  }
}
