/**
 * The admin enquiry list (pages/AdminEnquiryList.js): the enquiries of all
 * properties or of the one named by `?property=`, their CSV export, and the
 * status button of each row.
 */
module EnquiryList {
  import opened Wrappers
  import opened Text
  import opened Lists
  import opened Csv
  import opened Listing

  /** `e.property?.propertyId === Number(filter)`: a text that is not a number matches nothing. */
  predicate ForProperty(e: Enquiry, filter: string): (r: bool)
    ensures r ==> ToNumber(filter).Finite? && e.property.Some?
  {
    var n := ToNumber(filter);
    n.Finite? && e.property.Some? && e.property.value.propertyId == Some(n.value)
  }

  function ForPropertyFn(filter: string): Enquiry -> bool {
    e => ForProperty(e, filter)
  }

  /** The list `load` shows: only the chosen property's enquiries when `?property=` is set and not empty. */
  function FilterByProperty(list: seq<Enquiry>, propertyFilter: Option<string>): (r: seq<Enquiry>)
    ensures !TruthyText(propertyFilter) ==> r == list
    ensures IsSubsequence(r, list)
  {
    if TruthyText(propertyFilter) then
      KeepIsSubsequence(list, ForPropertyFn(propertyFilter.value));
      Keep(list, ForPropertyFn(propertyFilter.value))
    else
      SubsequenceOfItself(list);
      list
  }

  /** With `?property=<n>`, exactly the enquiries about property n stay, each once, in list order. */
  lemma {:induction false} FilterKeepsExactly(list: seq<Enquiry>, n: int)
    ensures forall i :: 0 <= i < |FilterByProperty(list, Some(IntToString(n)))| ==>
              var e := FilterByProperty(list, Some(IntToString(n)))[i];
              e.property.Some? && e.property.value.propertyId == Some(n)
    ensures forall i :: 0 <= i < |list| && list[i].property.Some? && list[i].property.value.propertyId == Some(n) ==>
              list[i] in FilterByProperty(list, Some(IntToString(n)))
  {
    var s := IntToString(n);
    NumberOfString(n);
    assert TruthyText(Some(s));
    KeepMembers(list, ForPropertyFn(s));
    var r := FilterByProperty(list, Some(s));
    assert forall i :: 0 <= i < |r| ==> ForPropertyFn(s)(r[i]);
  }

  /** A filter that does not read as a number hides every enquiry. */
  lemma {:induction false} NonNumericFilterHidesAll(list: seq<Enquiry>, filter: string)
    requires filter != "" && ToNumber(filter).NaN?
    ensures FilterByProperty(list, Some(filter)) == []
  {
    KeepNone(list, ForPropertyFn(filter));
  }

  // ------------------------------------------------ CSV export

  function HeaderNames(): seq<string> {
    ["Enquiry ID", "Buyer Name", "Phone", "Email", "Message", "Property ID", "Property Title", "Created At"]
  }

  function Headers(): seq<Cell> {
    PlainRow(HeaderNames())
  }

  function PropertyIdText(e: Enquiry): string {
    if e.property.Some? && e.property.value.propertyId.Some? && e.property.value.propertyId.value != 0
    then IntToString(e.property.value.propertyId.value) else ""
  }

  function PropertyTitle(e: Enquiry): string {
    if e.property.Some? then OrEmpty(e.property.value.title) else ""
  }

  /** `createdAt ? new Date(createdAt).toLocaleString() : ""`, the locale formatting given as `format`. */
  function CreatedText(e: Enquiry, format: string -> string): string {
    if TruthyText(e.createdAt) then format(e.createdAt.value) else ""
  }

  /** Buyer name, message and property title quoted; the rest raw, missing or zero as empty. */
  function EnquiryCells(e: Enquiry, format: string -> string): (r: seq<Cell>)
    ensures |r| == |Headers()|
    ensures r[1].Quoted? && r[4].Quoted? && r[6].Quoted?
    ensures r[0].Plain? && r[2].Plain? && r[3].Plain? && r[5].Plain? && r[7].Plain?
  {
    [Plain(IntToString(e.enquiryId)),
     Quoted(OrEmpty(e.buyerName)),
     Plain(OrEmpty(e.phone)),
     Plain(OrEmpty(e.email)),
     Quoted(OrEmpty(e.message)),
     Plain(PropertyIdText(e)),
     Quoted(PropertyTitle(e)),
     Plain(CreatedText(e, format))]
  }

  function EnquiryLines(list: seq<Enquiry>, format: string -> string): (r: seq<seq<Cell>>)
    ensures |r| == |list| && forall i :: 0 <= i < |list| ==> r[i] == EnquiryCells(list[i], format)
  {
    seq(|list|, i requires 0 <= i < |list| => EnquiryCells(list[i], format))
  }

  /** `enquiries_property_<filter>.csv` when filtered, else `enquiries.csv`. */
  function FileName(propertyFilter: Option<string>): (r: string)
    ensures TruthyText(propertyFilter) ==> r == "enquiries_property_" + propertyFilter.value + ".csv"
    ensures !TruthyText(propertyFilter) ==> r == "enquiries.csv"
  {
    if TruthyText(propertyFilter) then "enquiries_property_" + propertyFilter.value + ".csv" else "enquiries.csv"
  }

  function ExportEnquiriesCsv(list: seq<Enquiry>, propertyFilter: Option<string>, format: string -> string): (r: Export)
    ensures r.NoFile? <==> list == []
    ensures r.NoFile? ==> r.alert == "No enquiries available"
    ensures r.File? ==> r.name == FileName(propertyFilter)
  {
    if |list| == 0 then NoFile("No enquiries available")
    else File(FileName(propertyFilter), RenderTable([Headers()] + EnquiryLines(list, format)))
  }

  /** The raw columns must not hold a separator; a formatted date with a comma would split its column. */
  predicate RawFieldsSafe(e: Enquiry, format: string -> string) {
    PlainSafe(OrEmpty(e.phone)) && PlainSafe(OrEmpty(e.email)) && PlainSafe(CreatedText(e, format))
  }

  function EnquiryValues(e: Enquiry, format: string -> string): seq<string> {
    [IntToString(e.enquiryId), OrEmpty(e.buyerName), OrEmpty(e.phone), OrEmpty(e.email),
     OrEmpty(e.message), PropertyIdText(e), PropertyTitle(e), CreatedText(e, format)]
  }

  lemma {:induction false} EnquiryCellsReadable(e: Enquiry, format: string -> string)
    requires RawFieldsSafe(e, format)
    ensures RowReadable(EnquiryCells(e, format))
    ensures Texts(EnquiryCells(e, format)) == EnquiryValues(e, format)
  {
    NumberIsPlainSafe(e.enquiryId);
    if PropertyIdText(e) != "" { NumberIsPlainSafe(e.property.value.propertyId.value); }
  }

  /** The header names hold no comma, quote or line feed (checked four names at a time). */
  lemma {:induction false} LeadingNamesSafe()
    ensures forall j :: 0 <= j < 4 ==> PlainSafe(HeaderNames()[j])
  {
  }

  lemma {:induction false} TrailingNamesSafe()
    ensures forall j :: 4 <= j < |HeaderNames()| ==> PlainSafe(HeaderNames()[j])
  {
  }

  lemma {:induction false} HeadersReadable()
    ensures RowReadable(Headers()) && Texts(Headers()) == HeaderNames()
  {
    LeadingNamesSafe();
    TrailingNamesSafe();
    PlainRowReadable(HeaderNames());
  }

  /** Reading the file back gives the 8 header names, then one line per enquiry in list order. */
  lemma {:induction false} ExportReadsBack(list: seq<Enquiry>, propertyFilter: Option<string>, format: string -> string)
    requires list != []
    requires forall i :: 0 <= i < |list| ==> RawFieldsSafe(list[i], format)
    ensures |ParseTable(ExportEnquiriesCsv(list, propertyFilter, format).text)| == |list| + 1
    ensures ParseTable(ExportEnquiriesCsv(list, propertyFilter, format).text)[0]
         == ["Enquiry ID", "Buyer Name", "Phone", "Email", "Message", "Property ID", "Property Title", "Created At"]
    ensures forall i :: 0 <= i < |list| ==>
              ParseTable(ExportEnquiriesCsv(list, propertyFilter, format).text)[i + 1] == EnquiryValues(list[i], format)
  {
    var lines := EnquiryLines(list, format);
    forall i | 0 <= i < |list|
      ensures RowReadable(lines[i]) && Texts(lines[i]) == EnquiryValues(list[i], format)
    {
      EnquiryCellsReadable(list[i], format);
    }
    HeadersReadable();
    HeaderAndLinesReadBack(Headers(), lines);
  }

  // ------------------------------------------------ row status button

  datatype StatusButton = MoveToApproved | MarkAsSold

  /** A sold property offers "Move to APPROVED"; any other status, or none, offers "Mark as SOLD". */
  function StatusAction(p: Option<PropertyRef>): (r: StatusButton)
    ensures r == MoveToApproved <==> p.Some? && p.value.status == Some("sold")
  {
    if p.Some? && p.value.status == Some("sold") then MoveToApproved else MarkAsSold
  }

  class EnquiryListPage {
    var enquiries: seq<Enquiry>
    var loading: bool
    const propertyFilter: Option<string>

    constructor(filter: Option<string>)
      ensures enquiries == [] && loading && propertyFilter == filter
    {
      enquiries := [];
      loading := true;
      propertyFilter := filter;
    }

    /**
     * `load` once `getAllEnquiries(0, 500)` has answered: `data.content || []`,
     * filtered. A failure, or an answer without `data` (reading `content` of it
     * throws), keeps the list; `loading` ends either way.
     */
    method Load(answer: Remote<Body<Enquiry>>)
      modifies this
      ensures !loading
      ensures answer.Ok? && !answer.value.NoData? ==> enquiries == FilterByProperty(ContentOrEmpty(answer.value), propertyFilter)
      ensures answer.Failed? || answer.value.NoData? ==> enquiries == old(enquiries)
    {
      if answer.Ok? && !answer.value.NoData? {
        enquiries := FilterByProperty(ContentOrEmpty(answer.value), propertyFilter);
      }
      loading := false;
    }
  }
}
