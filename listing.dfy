/**
 * The records the pages receive from the back end, and the ways the pages read
 * a list out of a response body whose shape they do not trust: a page object
 * with `content`, a bare array, or nothing at all.
 */
module Listing {
  import opened Wrappers
  import opened Text

  datatype Address = Address(city: Option<string>, area: Option<string>, state: Option<string>, pincode: Option<string>)

  datatype SellerInfo = SellerInfo(sellerId: Option<int>, sellerName: Option<string>)

  /** An image entry is either an object with an `imageUrl` or, in older data, the URL text itself. */
  datatype Image = ImageRecord(imageUrl: Option<string>) | ImageText(url: string)

  datatype Property = Property(
    propertyId: int,
    title: Option<string>,
    description: Option<string>,
    listingType: Option<string>,
    price: Option<int>,
    monthlyRent: Option<int>,
    bedrooms: Option<int>,
    bathrooms: Option<int>,
    status: Option<string>,
    address: Option<Address>,
    seller: Option<SellerInfo>,
    images: Option<seq<Image>>)

  datatype Project = Project(
    id: int,
    title: Option<string>,
    location: Option<string>,
    priceBigint: Option<int>,
    status: Option<string>,
    kind: Option<string>)

  /** The property an enquiry points at, as embedded in the enquiry. */
  datatype PropertyRef = PropertyRef(propertyId: Option<int>, title: Option<string>, status: Option<string>)

  datatype Enquiry = Enquiry(
    enquiryId: int,
    buyerName: Option<string>,
    phone: Option<string>,
    email: Option<string>,
    message: Option<string>,
    property: Option<PropertyRef>,
    createdAt: Option<string>)

  /** The `data` of a list response. */
  datatype Body<T> =
    | Page(content: Option<seq<T>>, totalPages: Option<int>, totalElements: Option<int>)
    | Items(items: seq<T>)
    | NoData

  // ------------------------------------------------ JavaScript fallbacks

  /** `safe(v)` and `v ?? ""`: a missing text reads as empty. */
  function OrEmpty(v: Option<string>): string {
    v.GetOr("")
  }

  /** `v || ""`: the same for text, since only the empty text is falsy. */
  predicate TruthyText(v: Option<string>) {
    v.Some? && v.value != ""
  }

  /** `v || 0` on a number: a missing number reads as 0. */
  function NumOrZero(v: Option<int>): int {
    v.GetOr(0)
  }

  function CityOf(p: Property): Option<string> {
    if p.address.Some? then p.address.value.city else None
  }

  function AreaOf(p: Property): Option<string> {
    if p.address.Some? then p.address.value.area else None
  }

  predicate HasStatus(p: Property, s: string) {
    p.status == Some(s)
  }

  predicate IsApproved(p: Property) {
    HasStatus(p, "approved")
  }

  function ApprovedFn(): Property -> bool {
    p => IsApproved(p)
  }

  // ------------------------------------------------ reading a list body

  /** `Array.isArray(data?.content) ? data.content : Array.isArray(data) ? data : []`. */
  function Rows<T>(b: Body<T>): (r: seq<T>)
    ensures b.Page? ==> r == b.content.GetOr([])
    ensures b.Items? ==> r == b.items
    ensures b.NoData? ==> r == []
  {
    match b
    case Page(Some(c), _, _) => c
    case Items(xs) => xs
    case _ => []
  }

  /** `data?.content || []`: a bare array has no `content`, so it reads as empty. */
  function ContentOrEmpty<T>(b: Body<T>): (r: seq<T>)
    ensures r != [] ==> r == Rows(b)
    ensures b.Items? ==> r == []
  {
    if b.Page? && b.content.Some? then b.content.value else []
  }

  /**
   * `data?.content || data || []`: a page object without `content` is itself
   * truthy and is returned as the "list", which is not an array (None here).
   */
  function ContentOrData<T>(b: Body<T>): (r: Option<seq<T>>)
    ensures r.None? <==> b.Page? && b.content.None?
    ensures r.Some? ==> r.value == Rows(b)
  {
    match b
    case Page(Some(c), _, _) => Some(c)
    case Page(None, _, _) => None
    case Items(xs) => Some(xs)
    case NoData => Some([])
  }

  /** `data?.totalPages || 1`: absent or zero reads as one page. */
  function TotalPagesOrOne<T>(b: Body<T>): (r: int)
    ensures r != 0
  {
    if b.Page? && b.totalPages.Some? && b.totalPages.value != 0 then b.totalPages.value else 1
  }

  /** The three readings agree on page objects with content and on empty bodies; they differ only on the odd shapes. */
  lemma {:induction false} ReadingsAgree<T>(b: Body<T>)
    ensures b.Page? || b.NoData? ==> ContentOrEmpty(b) == Rows(b)
    ensures b.Items? ==> ContentOrEmpty(b) == [] && Rows(b) == b.items
    ensures ContentOrData(b).Some? <==> !(b.Page? && b.content.None?)
    ensures ContentOrData(b).Some? ==> ContentOrData(b).value == Rows(b)
  {
  }
}
