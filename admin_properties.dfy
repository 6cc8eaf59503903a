/**
 * The admin property table (pages/AdminProperties.js): the loaded list, a
 * sorted copy of it, per-property enquiry counts, the CSV export, the search
 * parameters of the filter bar, and a flag that keeps a second action from
 * starting while one is in flight.
 */
module AdminProperties {
  import opened Wrappers
  import opened Text
  import opened Lists
  import opened Sorting
  import opened Csv
  import opened Listing
  import opened CountMerge

  /** The columns `applySorting` knows; the table header offers all but City. */
  datatype Column = PropertyId | Title | SellerName | City | ListingType | Price | Status

  /** The value compared for column `c`: lower-cased text for title, seller and city, the rent or price for Price, the raw field otherwise. */
  function SortKeyOf(c: Column, p: Property): (r: SortKey)
    ensures r.Num? <==> c.PropertyId? || c.Price?
  {
    match c
    case Title => Text(ToLower(OrEmpty(p.title)))
    case SellerName => Text(ToLower(if p.seller.Some? then OrEmpty(p.seller.value.sellerName) else ""))
    case City => Text(ToLower(OrEmpty(CityOf(p))))
    case Price => Num(ListedPrice(p))
    case PropertyId => Num(p.propertyId)
    case ListingType => Text(OrEmpty(p.listingType))
    case Status => Text(OrEmpty(p.status))
  }

  /** `listingType === "rent" ? monthlyRent || 0 : price || 0`. */
  function ListedPrice(p: Property): int {
    if p.listingType == Some("rent") then NumOrZero(p.monthlyRent) else NumOrZero(p.price)
  }

  /** The price column compares the monthly rent of rentals and the price of everything else, a missing one as 0. */
  lemma {:induction false} PriceKey(p: Property)
    ensures p.listingType == Some("rent") ==> SortKeyOf(Price, p) == Num(if p.monthlyRent.Some? then p.monthlyRent.value else 0)
    ensures p.listingType != Some("rent") ==> SortKeyOf(Price, p) == Num(if p.price.Some? then p.price.value else 0)
  {
  }

  /** Text columns ignore letter case: two titles equal up to ASCII case tie. */
  lemma {:induction false} TitleKeyIgnoresCase(p: Property, q: Property)
    requires ToLower(OrEmpty(p.title)) == ToLower(OrEmpty(q.title))
    ensures Compare(SortKeyOf(Title, p), SortKeyOf(Title, q), Asc) == 0
  {
    CompareConsistent(SortKeyOf(Title, p), SortKeyOf(Title, q), SortKeyOf(Title, p), Asc);
  }

  function KeyFn(c: Column): Property -> SortKey {
    p => SortKeyOf(c, p)
  }

  /** `[...data].sort(comparator)` for the configured column and direction. */
  function ApplySorting(data: seq<Property>, config: SortConfig<Column>): (r: seq<Property>)
    ensures |r| == |data|
  {
    SortByKey(data, KeyFn(config.key), config.direction)
  }

  /** The sorted copy holds the same rows, in the column's order, ties in their loaded order. */
  lemma {:induction false} ApplySortingCorrect(data: seq<Property>, config: SortConfig<Column>)
    ensures multiset(ApplySorting(data, config)) == multiset(data)
    ensures forall i, j :: 0 <= i < j < |data| ==>
              Compare(SortKeyOf(config.key, ApplySorting(data, config)[i]),
                      SortKeyOf(config.key, ApplySorting(data, config)[j]), config.direction) <= 0
    ensures forall k :: Keep(ApplySorting(data, config), HasKey(KeyFn(config.key), k))
                     == Keep(data, HasKey(KeyFn(config.key), k))
  {
    SortByKeyCorrect(data, KeyFn(config.key), config.direction);
  }

  // ------------------------------------------------ enquiry counts

  /**
   * The count `loadEnquiryCounts` derives from one `getEnquiriesByProperty`
   * answer: a numeric `totalElements`, else the length of `content`, else the
   * length of a bare array, else 0; a failed request counts 0.
   */
  function EnquiryCountOf(answer: Remote<Body<Enquiry>>): (r: int)
    ensures answer.Failed? || answer.value.NoData? ==> r == 0
    ensures answer.Ok? && answer.value.Page? && answer.value.totalElements.Some? ==> r == answer.value.totalElements.value
    ensures answer.Ok? && !(answer.value.Page? && answer.value.totalElements.Some?) ==> r == |Rows(answer.value)|
  {
    match answer
    case Failed => 0
    case Ok(NoData) => 0
    case Ok(Page(_, _, Some(total))) => total
    case Ok(Page(Some(c), _, None)) => |c|
    case Ok(Items(xs)) => |xs|
    case Ok(Page(None, _, None)) => 0
  }

  /** The per-answer counts, keyed by the property each request was for. */
  function CountsOf(answers: seq<(int, Remote<Body<Enquiry>>)>): (r: seq<IdCount>)
    ensures |r| == |answers|
    ensures forall i :: 0 <= i < |answers| ==> r[i] == IdCount(answers[i].0, EnquiryCountOf(answers[i].1))
  {
    seq(|answers|, i requires 0 <= i < |answers| => IdCount(answers[i].0, EnquiryCountOf(answers[i].1)))
  }

  // ------------------------------------------------ CSV export

  function Ids(ps: seq<Property>): (r: seq<int>)
    ensures |r| == |ps| && forall i :: 0 <= i < |ps| ==> r[i] == ps[i].propertyId
  {
    seq(|ps|, i requires 0 <= i < |ps| => ps[i].propertyId)
  }

  function HeaderNames(): seq<string> {
    ["Property ID", "Title", "Listing Type", "Price/MonthlyRent", "City", "Bedrooms", "Bathrooms", "Status", "Enquiry Count"]
  }

  function Headers(): seq<Cell> {
    PlainRow(HeaderNames())
  }

  /** `p.listingType === "rent" ? p.monthlyRent || "" : p.price || ""`: zero and missing both print empty. */
  function PriceText(p: Property): string {
    var v := if p.listingType == Some("rent") then p.monthlyRent else p.price;
    if v.Some? && v.value != 0 then IntToString(v.value) else ""
  }

  /** `v ?? ""` on a number. */
  function NumberText(v: Option<int>): string {
    if v.Some? then IntToString(v.value) else ""
  }

  /** The row of one property; only the title is quoted. `join` prints a missing field as empty. */
  function PropertyCells(p: Property, counts: map<int, int>): (r: seq<Cell>)
    ensures |r| == |Headers()|
    ensures r[1] == Quoted(OrEmpty(p.title))
    ensures forall j :: 0 <= j < |r| && j != 1 ==> r[j].Plain?
  {
    [Plain(IntToString(p.propertyId)),
     Quoted(OrEmpty(p.title)),
     Plain(OrEmpty(p.listingType)),
     Plain(PriceText(p)),
     Plain(OrEmpty(CityOf(p))),
     Plain(NumberText(p.bedrooms)),
     Plain(NumberText(p.bathrooms)),
     Plain(OrEmpty(p.status)),
     Plain(IntToString(if p.propertyId in counts then counts[p.propertyId] else 0))]
  }

  function PropertyRows(sorted: seq<Property>, counts: map<int, int>): (r: seq<seq<Cell>>)
    ensures |r| == |sorted|
    ensures forall i :: 0 <= i < |sorted| ==> r[i] == PropertyCells(sorted[i], counts)
  {
    seq(|sorted|, i requires 0 <= i < |sorted| => PropertyCells(sorted[i], counts))
  }

  /** `exportPropertiesCSV`: an alert for an empty table, otherwise `properties.csv`. */
  function ExportPropertiesCsv(sorted: seq<Property>, counts: map<int, int>): (r: Export)
    ensures r.NoFile? <==> sorted == []
    ensures r.NoFile? ==> r.alert == "No properties to download"
    ensures r.File? ==> r.name == "properties.csv"
  {
    if |sorted| == 0 then NoFile("No properties to download")
    else File("properties.csv", RenderTable([Headers()] + PropertyRows(sorted, counts)))
  }

  /** The fields written unquoted must not hold a separator for the file to read back. */
  predicate RawFieldsSafe(p: Property) {
    PlainSafe(OrEmpty(p.listingType)) && PlainSafe(OrEmpty(CityOf(p))) && PlainSafe(OrEmpty(p.status))
  }

  /** What a reader recovers from one property's line. */
  function PropertyValues(p: Property, counts: map<int, int>): seq<string> {
    [IntToString(p.propertyId), OrEmpty(p.title), OrEmpty(p.listingType), PriceText(p),
     OrEmpty(CityOf(p)), NumberText(p.bedrooms), NumberText(p.bathrooms), OrEmpty(p.status),
     IntToString(if p.propertyId in counts then counts[p.propertyId] else 0)]
  }

  lemma {:induction false} LeadingCellsReadable(p: Property, counts: map<int, int>)
    requires RawFieldsSafe(p)
    ensures forall j :: 0 <= j < 4 ==> CellReadable(PropertyCells(p, counts)[j])
  {
    NumberIsPlainSafe(p.propertyId);
    var v := if p.listingType == Some("rent") then p.monthlyRent else p.price;
    if v.Some? { NumberIsPlainSafe(v.value); }
  }

  lemma {:induction false} TrailingCellsReadable(p: Property, counts: map<int, int>)
    requires RawFieldsSafe(p)
    ensures forall j :: 4 <= j < 9 ==> CellReadable(PropertyCells(p, counts)[j])
  {
    NumberIsPlainSafe(if p.propertyId in counts then counts[p.propertyId] else 0);
    if p.bedrooms.Some? { NumberIsPlainSafe(p.bedrooms.value); }
    if p.bathrooms.Some? { NumberIsPlainSafe(p.bathrooms.value); }
  }

  lemma {:induction false} PropertyCellsReadable(p: Property, counts: map<int, int>)
    requires RawFieldsSafe(p)
    ensures RowReadable(PropertyCells(p, counts))
    ensures Texts(PropertyCells(p, counts)) == PropertyValues(p, counts)
  {
    LeadingCellsReadable(p, counts);
    TrailingCellsReadable(p, counts);
  }

  /**
   * Reading the file back gives the header line, then one line per property in
   * table order with its id, its title as typed, the listing type, the rent or
   * price, the city, the rooms, the status and its enquiry count (0 when none
   * was loaded).
   */
  lemma {:induction false} ExportReadsBack(sorted: seq<Property>, counts: map<int, int>)
    requires sorted != []
    requires forall i :: 0 <= i < |sorted| ==> RawFieldsSafe(sorted[i])
    ensures |ParseTable(ExportPropertiesCsv(sorted, counts).text)| == |sorted| + 1
    ensures ParseTable(ExportPropertiesCsv(sorted, counts).text)[0]
         == ["Property ID", "Title", "Listing Type", "Price/MonthlyRent", "City", "Bedrooms", "Bathrooms", "Status", "Enquiry Count"]
    ensures forall i :: 0 <= i < |sorted| ==> ParseTable(ExportPropertiesCsv(sorted, counts).text)[i + 1] == PropertyValues(sorted[i], counts)
  {
    var lines := PropertyRows(sorted, counts);
    forall i | 0 <= i < |sorted|
      ensures RowReadable(lines[i]) && Texts(lines[i]) == PropertyValues(sorted[i], counts)
    {
      PropertyCellsReadable(sorted[i], counts);
    }
    HeadersReadable();
    HeaderAndLinesReadBack(Headers(), lines);
  }

  /** The header names hold no comma, quote or line feed (checked four names at a time). */
  lemma {:induction false} LeadingNamesSafe()
    ensures forall j :: 0 <= j < 4 ==> PlainSafe(HeaderNames()[j])
  {
  }

  lemma {:induction false} TrailingNamesSafe()
    ensures forall j :: 4 <= j < |HeaderNames()| ==> PlainSafe(HeaderNames()[j])
  {
  }

  lemma {:induction false} HeadersReadable()
    ensures RowReadable(Headers()) && Texts(Headers()) == HeaderNames()
  {
    LeadingNamesSafe();
    TrailingNamesSafe();
    PlainRowReadable(HeaderNames());
  }

  // ------------------------------------------------ filter bar

  datatype Filters = Filters(city: string, status: string, minPrice: string, maxPrice: string, bedrooms: string)

  const EmptyFilters := Filters("", "", "", "", "")

  /** The names of the five filter inputs. */
  const FilterKeys := {"city", "status", "minPrice", "maxPrice", "bedrooms"}

  /** The text of the filter field named `key`; no text for any other name. */
  function FieldText(f: Filters, key: string): string {
    if key == "city" then f.city
    else if key == "status" then f.status
    else if key == "minPrice" then f.minPrice
    else if key == "maxPrice" then f.maxPrice
    else if key == "bedrooms" then f.bedrooms
    else ""
  }

  /** `applyFilters`' `params`: each non-empty filter field in turn. */
  function FilterParams(f: Filters): (r: map<string, string>)
    ensures r.Keys <= FilterKeys
    ensures forall k :: k in r ==> r[k] != ""
  {
    var r0: map<string, string> := map[];
    var r1 := if f.city != "" then r0["city" := f.city] else r0;
    var r2 := if f.status != "" then r1["status" := f.status] else r1;
    var r3 := if f.minPrice != "" then r2["minPrice" := f.minPrice] else r2;
    var r4 := if f.maxPrice != "" then r3["maxPrice" := f.maxPrice] else r3;
    if f.bedrooms != "" then r4["bedrooms" := f.bedrooms] else r4
  }

  /** The parameters are exactly the non-empty filter fields, with their text. */
  lemma {:induction false} FilterParamsExact(f: Filters)
    ensures forall k :: k in FilterParams(f) <==> FieldText(f, k) != ""
    ensures forall k :: k in FilterParams(f) ==> FilterParams(f)[k] == FieldText(f, k)
  {
    var r := FilterParams(f);
    forall k
      ensures (k in r <==> FieldText(f, k) != "") && (k in r ==> r[k] == FieldText(f, k))
    {
      if k == "city" {
      } else if k == "status" {
      } else if k == "minPrice" {
      } else if k == "maxPrice" {
      } else if k == "bedrooms" {
      } else {
        assert k !in r;
      }
    }
  }

  // ------------------------------------------------ row actions

  datatype RowAction = Approve(id: int) | Reject(id: int) | Delete(id: int)

  /**
   * The alert an action ends with, if any: a declined delete confirmation ends
   * silently; otherwise the request's outcome picks the success or failure text.
   */
  function ActionAlert(a: RowAction, confirmed: bool, outcome: Remote<()>): (r: Option<string>)
    ensures r.None? <==> (a.Delete? && !confirmed)
    ensures a.Approve? ==> r == Some(if outcome.Ok? then "Approved" else "Failed to approve")
    ensures a.Reject? ==> r == Some(if outcome.Ok? then "Rejected" else "Failed to reject")
    ensures a.Delete? && confirmed ==> r == Some(if outcome.Ok? then "Deleted" else "Failed to delete")
  {
    match a
    case Approve(_) => Some(if outcome.Ok? then "Approved" else "Failed to approve")
    case Reject(_) => Some(if outcome.Ok? then "Rejected" else "Failed to reject")
    case Delete(_) => if !confirmed then None else Some(if outcome.Ok? then "Deleted" else "Failed to delete")
  }

  /** The two listing requests: `loadData`'s first 200 listings, whatever filters were applied before, and `applyFilters`' search. */
  datatype Fetch = GetProperties(page: int, size: int) | SearchProperty(params: map<string, string>)

  const FirstListings := GetProperties(0, 200)

  /** The page's state. `sortedList` is always the configured sort of `list`. */
  class AdminPropertiesPage {
    var list: seq<Property>
    var sortedList: seq<Property>
    var enquiryCounts: map<int, int>
    var sortConfig: SortConfig<Column>
    var filters: Filters
    var loading: bool
    var actionLoading: bool
    var mounted: bool

    ghost predicate Valid()
      reads this
    {
      sortedList == ApplySorting(list, sortConfig)
    }

    constructor()
      ensures Valid() && mounted && !loading && !actionLoading
      ensures list == [] && enquiryCounts == map[] && sortConfig == SortConfig(PropertyId, Asc)
      ensures filters == EmptyFilters
    {
      list := [];
      sortedList := [];
      enquiryCounts := map[];
      sortConfig := SortConfig(PropertyId, Asc);
      filters := EmptyFilters;
      loading := false;
      actionLoading := false;
      mounted := true;
    }

    /** The component unmounts: later answers are dropped. */
    method Unmount()
      modifies this
      ensures !mounted
      ensures list == old(list) && sortedList == old(sortedList) && enquiryCounts == old(enquiryCounts)
      ensures sortConfig == old(sortConfig) && filters == old(filters) && loading == old(loading) && actionLoading == old(actionLoading)
    {
      mounted := false;
    }

    /**
     * `loadData` once `FirstListings` has answered. Returns the ids whose
     * enquiry counts are then requested, in list order.
     */
    method LoadData(answer: Remote<Body<Property>>) returns (countRequests: seq<int>)
      requires Valid()
      modifies this
      ensures Valid()
      ensures sortConfig == old(sortConfig) && filters == old(filters) && actionLoading == old(actionLoading) && mounted == old(mounted)
      ensures !mounted ==> list == old(list) && enquiryCounts == old(enquiryCounts) && loading && countRequests == []
      ensures mounted ==> !loading
      ensures mounted && answer.Ok? ==> list == Rows(answer.value) && enquiryCounts == old(enquiryCounts)
      ensures mounted && answer.Ok? ==> countRequests == Ids(list)
      ensures mounted && answer.Failed? ==> list == [] && sortedList == [] && enquiryCounts == map[] && countRequests == []
    {
      loading := true;
      countRequests := [];
      if answer.Ok? {
        if mounted {
          var data := Rows(answer.value);
          list := data;
          sortedList := ApplySorting(data, sortConfig);
          countRequests := Ids(data);
        }
      } else if mounted {
        list := [];
        sortedList := [];
        enquiryCounts := map[];
      }
      if mounted {
        loading := false;
      }
    }

    /** An input of the filter bar: `setFilters({ ...filters, [key]: value })`, with no request. */
    method SetFilter(key: string, value: string)
      requires key in FilterKeys
      modifies this
      ensures FieldText(filters, key) == value
      ensures forall k :: k != key ==> FieldText(filters, k) == FieldText(old(filters), k)
      ensures list == old(list) && sortedList == old(sortedList) && enquiryCounts == old(enquiryCounts)
      ensures sortConfig == old(sortConfig) && loading == old(loading)
      ensures actionLoading == old(actionLoading) && mounted == old(mounted)
    {
      if key == "city" {
        filters := filters.(city := value);
      } else if key == "status" {
        filters := filters.(status := value);
      } else if key == "minPrice" {
        filters := filters.(minPrice := value);
      } else if key == "maxPrice" {
        filters := filters.(maxPrice := value);
      } else {
        filters := filters.(bedrooms := value);
      }
    }

    /** `resetFilters`: every field cleared, then `loadData`, whose answer `LoadData` takes. */
    method ResetFilters() returns (reload: Fetch)
      modifies this
      ensures filters == EmptyFilters && forall k :: FieldText(filters, k) == ""
      ensures loading && reload == FirstListings
      ensures list == old(list) && sortedList == old(sortedList) && enquiryCounts == old(enquiryCounts)
      ensures sortConfig == old(sortConfig) && actionLoading == old(actionLoading) && mounted == old(mounted)
    {
      filters := EmptyFilters;
      loading := true;
      reload := FirstListings;
    }

    /** The synchronous start of `applyFilters`: loading rises and the search holds the filled-in fields. */
    method BeginApplyFilters() returns (search: Fetch)
      modifies this
      ensures loading && search.SearchProperty?
      ensures forall k :: k in search.params <==> FieldText(filters, k) != ""
      ensures forall k :: k in search.params ==> search.params[k] == FieldText(filters, k)
      ensures filters == old(filters) && list == old(list) && sortedList == old(sortedList)
      ensures enquiryCounts == old(enquiryCounts) && sortConfig == old(sortConfig)
      ensures actionLoading == old(actionLoading) && mounted == old(mounted)
    {
      loading := true;
      search := SearchProperty(FilterParams(filters));
      FilterParamsExact(filters);
    }

    /** `applyFilters` once the search of `BeginApplyFilters` has answered; a failure keeps the counts. */
    method ApplyFilters(answer: Remote<Body<Property>>) returns (countRequests: seq<int>)
      requires Valid()
      modifies this
      ensures Valid()
      ensures sortConfig == old(sortConfig) && filters == old(filters) && actionLoading == old(actionLoading) && mounted == old(mounted)
      ensures enquiryCounts == old(enquiryCounts)
      ensures !mounted ==> list == old(list) && loading && countRequests == []
      ensures mounted ==> !loading
      ensures mounted && answer.Ok? ==> list == Rows(answer.value)
      ensures mounted && answer.Ok? ==> countRequests == Ids(list)
      ensures mounted && answer.Failed? ==> list == [] && sortedList == [] && countRequests == []
    {
      loading := true;
      countRequests := [];
      if answer.Ok? {
        if mounted {
          var data := Rows(answer.value);
          list := data;
          sortedList := ApplySorting(data, sortConfig);
          countRequests := Ids(data);
        }
      } else if mounted {
        list := [];
        sortedList := [];
      }
      if mounted {
        loading := false;
      }
    }

    /** `loadEnquiryCounts` once every request has answered: one entry per property id. */
    method ReceiveEnquiryCounts(answers: seq<(int, Remote<Body<Enquiry>>)>)
      modifies this
      ensures list == old(list) && sortedList == old(sortedList) && sortConfig == old(sortConfig) && filters == old(filters)
      ensures loading == old(loading) && actionLoading == old(actionLoading) && mounted == old(mounted)
      ensures !mounted ==> enquiryCounts == old(enquiryCounts)
      ensures mounted ==> enquiryCounts.Keys == set i | 0 <= i < |answers| :: answers[i].0
      ensures mounted ==> forall i :: 0 <= i < |answers| && (forall j :: i < j < |answers| ==> answers[j].0 != answers[i].0)
                            ==> enquiryCounts[answers[i].0] == EnquiryCountOf(answers[i].1)
    {
      if mounted {
        var counts := CountsOf(answers);
        var m := MergeCounts(counts);
        assert forall i :: 0 <= i < |answers| ==> counts[i].id == answers[i].0;
        assert (set i | 0 <= i < |counts| :: counts[i].id) == set i | 0 <= i < |answers| :: answers[i].0;
        enquiryCounts := m;
        forall i | 0 <= i < |answers| && (forall j :: i < j < |answers| ==> answers[j].0 != answers[i].0)
          ensures m[answers[i].0] == EnquiryCountOf(answers[i].1)
        {
          assert LastFor(counts, i, |counts|);
        }
      }
    }

    /**
     * `sortBy(key)`: toggle or reset the direction and re-sort the loaded list.
     * `loadData` depends on `sortConfig`, and the mount effect on `loadData`, so
     * the click also starts a fresh `loadData`: loading rises and `FirstListings`
     * is requested, whose answer `LoadData` then takes. The rows of an applied
     * filter are thereby replaced by the unfiltered first page.
     */
    method SortBy(key: Column) returns (reload: Fetch)
      requires Valid()
      modifies this
      ensures Valid()
      ensures sortConfig == NextConfig(old(sortConfig), key) && filters == old(filters)
      ensures list == old(list) && enquiryCounts == old(enquiryCounts)
      ensures loading && reload == FirstListings
      ensures actionLoading == old(actionLoading) && mounted == old(mounted)
    {
      sortConfig := NextConfig(sortConfig, key);
      sortedList := ApplySorting(list, sortConfig);
      loading := true;
      reload := FirstListings;
    }

    /** The synchronous start of `safeAction`: refused while another action runs. */
    method BeginAction() returns (started: bool)
      modifies this
      ensures started <==> !old(actionLoading)
      ensures actionLoading
      ensures list == old(list) && sortedList == old(sortedList) && enquiryCounts == old(enquiryCounts)
      ensures sortConfig == old(sortConfig) && filters == old(filters) && loading == old(loading) && mounted == old(mounted)
    {
      started := !actionLoading;
      actionLoading := true;
    }

    /** The end of `safeAction`, after the callback has settled. */
    method EndAction()
      modifies this
      ensures !actionLoading
      ensures list == old(list) && sortedList == old(sortedList) && enquiryCounts == old(enquiryCounts)
      ensures sortConfig == old(sortConfig) && filters == old(filters) && loading == old(loading) && mounted == old(mounted)
    {
      actionLoading := false;
    }
  }
}
