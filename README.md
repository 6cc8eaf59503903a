# Real-estate front end: a verified model of its page logic

This project models, in Dafny, the logic inside the page components of a
React front end for a real-estate agency. The modelled parts are:

- the public listing pages: Home's recommendations, the Properties page with
  its filters and pager, a listing card, a listing's details page and the
  wishlist;
- the public forms: "List Your Property" (Sell) and "Contact Agent";
- the admin pages:
  - the property, project and enquiry tables, with their sorting, per-row
    counts and CSV exports;
  - the dashboard totals and their count-up animation;
  - the property editor and the project add/edit forms;
  - the project and property view pages;
  - the sidebar highlighting.

Remote calls are parameters of type `Remote<T>` (`Ok(value)` or `Failed`). An
asynchronous handler is split at its first `await`:

- a `Begin…` method holds the guard, the validation and the flag raised;
- a `Finish…` method takes the answers, returns the calls made and the
  events raised (`Alert`, `Navigate`, `Reload`), and lowers the flag.

When a handler changes a value that an effect depends on, the effect runs the
page's loader again. The handler then raises the loading flag and returns the
request that loader sends, and the page's load method takes the answer.

A component's state is a class whose fields its handlers reassign. Pure
computations are functions. Each function is paired with lemmas that state
what the page promises:

- the admin sorts are stable permutations in the column's order;
- the filter chains keep exactly the listings that meet every condition, in
  order;
- every CSV export reads back, under a reader following section 2 of RFC
  4180, as the header names and one row of values per record;
- the validators report the first failing check, and report nothing exactly
  when the form is complete;
- the wishlist toggles leave every other id where it was.

Shared modules:

- `Wrappers`: `Option` and `Remote`.
- `Text`: trimming, ASCII lower-casing, `includes`, and `String(n)` and `Number(s)` for integers.
- `Lists`: the order-preserving filter `Keep`, removal, and the splice-style move.
- `Sorting`: sort keys, the comparator, and a stable insertion sort.
- `Csv`: cells, rendering, and the reader.
- `Validation`: first-failing-check chains.
- `CountMerge`: the per-id count map.
- `Listing`: the records and the shapes of list responses.
- `Ui`: events, file previews, and the single-field form update.

## Model

| member | source | states |
|---|---|---|
| Sorting.Compare | realestate_frontend/src/pages/AdminProperties.js:160-162 | the comparator answers -1, 0 or 1 |
| Sorting.CompareConsistent | realestate_frontend/src/pages/AdminProperties.js:160-162 | the comparator is antisymmetric, zero exactly on equal keys, and transitive, so it is a valid `sort` comparator |
| Sorting.KeyLessOrder | realestate_frontend/src/pages/AdminProjects.js:114-116 | `<` on two keys of one column is a strict total order; strings compare by their UTF-16 code units, as JavaScript's `<` does |
| Sorting.CodeUnits | realestate_frontend/src/pages/AdminProjects.js:114-116 | a character below U+10000 is one code unit, itself and never a surrogate; any other is a high surrogate followed by a low one |
| Sorting.Utf16Injective | realestate_frontend/src/pages/AdminProjects.js:114-116 | different strings have different UTF-16 encodings, so the code-unit order is total on strings |
| Sorting.SurrogatesSortLow | realestate_frontend/src/pages/AdminProjects.js:114-116 | U+1F600 sorts before U+FF01, by its high surrogate 0xD83D, though its code point is the larger |
| Sorting.SortByKeyCorrect | realestate_frontend/src/pages/AdminProperties.js:129-163 | the sorted copy is a permutation of the input, in the comparator's order, and rows with equal keys keep their input order (a stable sort) |
| Sorting.SortByKeyPermutes | realestate_frontend/src/pages/AdminProperties.js:129 | sorting a copy keeps every row exactly as often as before |
| Sorting.SortByKeySorts | realestate_frontend/src/pages/AdminProperties.js:160-162 | no two rows of the result are out of the comparator's order |
| Sorting.SortByKeyStable | realestate_frontend/src/pages/AdminProperties.js:162 | for every key, the rows holding it appear in the result in their input order |
| Sorting.NextConfig | realestate_frontend/src/pages/AdminProperties.js:168-172 | the new key is the clicked one; it is descending exactly when the clicked column was already ascending |
| Sorting.ClicksAlternate | realestate_frontend/src/pages/AdminProjects.js:122-129 | repeated clicks on one column alternate its direction; a new column starts ascending |
| Sorting.DescendingIsNotReversedOnTies | realestate_frontend/src/pages/AdminProperties.js:160-162 | a descending sort is not the reverse of the ascending one when rows tie: tied rows keep their order in both |
| Sorting.DescendingIsReversedWithoutTies | realestate_frontend/src/pages/AdminProperties.js:160-162 | with all keys distinct, the descending sort is the ascending sort reversed |
| Sorting.SortedUnique | realestate_frontend/src/pages/AdminProperties.js:160-162 | with distinct keys, only one arrangement of the rows is in the comparator's order |
| Sorting.DistinctKeysAreUnique | realestate_frontend/src/pages/AdminProperties.js:160-162 | pairwise different keys means no key held by two rows, and back (with `UniqueKeysAreDistinct`) |
| Sorting.UniqueKeysAreDistinct | realestate_frontend/src/pages/AdminProperties.js:160-162 | no key held by two rows means pairwise different keys |
| AdminProperties.PriceKey | realestate_frontend/src/pages/AdminProperties.js:145-154 | the price column compares a rental's monthly rent and any other listing's price, a missing one as 0 |
| AdminProperties.SortKeyOf | realestate_frontend/src/pages/AdminProperties.js:129-158 | the id and price columns compare numbers and the other columns compare text, so no column mixes the two kinds |
| AdminProperties.ApplySorting | realestate_frontend/src/pages/AdminProperties.js:128-166 | the sorted copy has as many rows as the list (`ApplySortingCorrect` gives the rest) |
| AdminProperties.TitleKeyIgnoresCase | realestate_frontend/src/pages/AdminProperties.js:41-42 | titles equal up to letter case, or a missing title and an empty one, tie |
| AdminProperties.ApplySortingCorrect | realestate_frontend/src/pages/AdminProperties.js:128-166 | the sorted list is a permutation of the loaded list, ordered by the column's key in the configured direction, with ties in loaded order |
| AdminProperties.EnquiryCountOf | realestate_frontend/src/pages/AdminProperties.js:83-100 | the count is a numeric `totalElements`, else the `content` length, else the bare-array length, else 0; a failed request counts 0 |
| AdminProperties.CountsOf | realestate_frontend/src/pages/AdminProperties.js:81-101 | one (id, count) record per request, in request order |
| AdminProperties.Ids | realestate_frontend/src/pages/AdminProperties.js:81-82 | the ids whose counts are requested, one per property, in list order |
| CountMerge.MergeCounts | realestate_frontend/src/pages/AdminProperties.js:106-107 | the map has a key for exactly the ids among the results, and each id maps to the count of its last result |
| AdminProperties.PropertyCells | realestate_frontend/src/pages/AdminProperties.js:198-208 | a property line has the 9 columns of the header; only the title is quoted |
| AdminProperties.PropertyRows | realestate_frontend/src/pages/AdminProperties.js:198 | one line per property, in sorted order |
| AdminProperties.ExportPropertiesCsv | realestate_frontend/src/pages/AdminProperties.js:180-219 | an empty table gives the alert "No properties to download" and no file; otherwise the file is `properties.csv` |
| AdminProperties.PropertyCellsReadable | realestate_frontend/src/pages/AdminProperties.js:198-208 | a line whose raw fields hold no separator reads back as id, title, type, price or rent, city, bedrooms, bathrooms, status and count (0 when missing) |
| AdminProperties.HeadersReadable | realestate_frontend/src/pages/AdminProperties.js:186-196 | the header line reads back as its nine names |
| AdminProperties.ExportReadsBack | realestate_frontend/src/pages/AdminProperties.js:186-210 | reading the file gives the header, then one row per property in sorted order holding that property's values |
| AdminProperties.FilterParamsExact | realestate_frontend/src/pages/AdminProperties.js:227-232 | the search parameters are exactly the non-empty filter fields, each with its text |
| AdminProperties.FilterParams | realestate_frontend/src/pages/AdminProperties.js:227-232 | only the five filter names can appear, each with non-empty text |
| AdminProperties.ActionAlert | realestate_frontend/src/pages/AdminProperties.js:279-311 | a declined delete ends silently; otherwise each action has its own pair of alerts: "Approved" or "Failed to approve", "Rejected" or "Failed to reject", "Deleted" or "Failed to delete", picked by the request's outcome |
| AdminProperties.AdminPropertiesPage.constructor | realestate_frontend/src/pages/AdminProperties.js:16-39 | empty tables, sorted by id ascending, nothing in flight |
| AdminProperties.AdminPropertiesPage.Unmount | realestate_frontend/src/pages/AdminProperties.js:120-122 | only the mounted flag drops |
| AdminProperties.AdminPropertiesPage.LoadData | realestate_frontend/src/pages/AdminProperties.js:47-73 | while mounted, an answer replaces the list and the sorted list and requests the counts; a failure empties list, sorted list and counts; after unmounting nothing changes; the sorted list stays the sort of the list |
| AdminProperties.AdminPropertiesPage.SetFilter | realestate_frontend/src/pages/AdminProperties.js:342-387 | the named filter field takes the typed text, every other field keeps its text, and nothing is requested |
| AdminProperties.AdminPropertiesPage.ResetFilters | realestate_frontend/src/pages/AdminProperties.js:258-267 | every filter field is emptied, loading rises and the first 200 listings are requested again |
| AdminProperties.AdminPropertiesPage.BeginApplyFilters | realestate_frontend/src/pages/AdminProperties.js:224-234 | loading rises and the search sent holds exactly the non-empty filter fields of the page, each with its text |
| AdminProperties.AdminPropertiesPage.ApplyFilters | realestate_frontend/src/pages/AdminProperties.js:236-256 | the search's answer: as LoadData, except that a failure keeps the enquiry counts |
| AdminProperties.AdminPropertiesPage.ReceiveEnquiryCounts | realestate_frontend/src/pages/AdminProperties.js:103-108 | while mounted, the counts map has one key per requested id, holding the count of that id's last answer; after unmounting it is untouched |
| AdminProperties.AdminPropertiesPage.SortBy | realestate_frontend/src/pages/AdminProperties.js:168-175 | the config becomes `NextConfig` of the old one and the loaded list is shown re-sorted by it; because `loadData` depends on `sortConfig` (lines 47-73, 117-123), loading rises and the first 200 listings are requested again, so `LoadData` then replaces any filtered rows |
| AdminProperties.AdminPropertiesPage.BeginAction | realestate_frontend/src/pages/AdminProperties.js:272-274 | an action starts only when none is running; the flag is up afterwards |
| AdminProperties.AdminPropertiesPage.EndAction | realestate_frontend/src/pages/AdminProperties.js:276 | the action flag is lowered and nothing else changes |
| AdminProjects.ApplySortingCorrect | realestate_frontend/src/pages/AdminProjects.js:84-120 | the sorted list is a permutation of the list, in the column's order, ties kept in list order |
| AdminProjects.SortKeyOf | realestate_frontend/src/pages/AdminProjects.js:88-112 | the id and price columns compare numbers and the other columns compare text |
| AdminProjects.ApplySorting | realestate_frontend/src/pages/AdminProjects.js:84-120 | the sorted copy has as many rows as the list (`ApplySortingCorrect` gives the rest) |
| AdminProjects.MissingPriceSortsAsZero | realestate_frontend/src/pages/AdminProjects.js:104-107 | a project without a price sorts as priced 0, before any positive price when ascending |
| AdminProjects.ImageCountOf | realestate_frontend/src/pages/AdminProjects.js:53-59 | the count is the length of an array answer, and 0 for any other answer or a failure |
| AdminProjects.CountsOf | realestate_frontend/src/pages/AdminProjects.js:53-60 | one (id, count) record per request, in request order |
| AdminProjects.ProjectIds | realestate_frontend/src/pages/AdminProjects.js:53-54 | one id per project, in list order |
| AdminProjects.ProjectCells | realestate_frontend/src/pages/AdminProjects.js:180-188 | a project line has the 7 columns of the header; only the title is quoted, and a missing title is written `undefined` |
| AdminProjects.ProjectLines | realestate_frontend/src/pages/AdminProjects.js:180 | one line per project, in sorted order |
| AdminProjects.ExportProjectsCsv | realestate_frontend/src/pages/AdminProjects.js:167-198 | an empty table gives the alert "No data" and no file; otherwise the file is `projects.csv` |
| AdminProjects.ExportIsTable | realestate_frontend/src/pages/AdminProjects.js:190-191 | the file text is the header line and the project lines, joined by line feeds |
| AdminProjects.ProjectCellsReadable | realestate_frontend/src/pages/AdminProjects.js:180-188 | a line whose raw fields hold no separator reads back as its seven values, the count 0 when missing |
| AdminProjects.HeadersReadable | realestate_frontend/src/pages/AdminProjects.js:170-178 | the header line reads back as its seven names |
| AdminProjects.ExportReadsBack | realestate_frontend/src/pages/AdminProjects.js:170-191 | reading the file gives the header, then one row per project in sorted order holding that project's values |
| AdminProjects.AdminProjectsPage.constructor | realestate_frontend/src/pages/AdminProjects.js:14-25 | empty tables, sorted by id ascending |
| AdminProjects.AdminProjectsPage.Unmount | realestate_frontend/src/pages/AdminProjects.js:80 | only the mounted flag drops |
| AdminProjects.AdminProjectsPage.LoadData | realestate_frontend/src/pages/AdminProjects.js:31-47 | while mounted, an answer replaces the list and the sorted list (`content` or empty) and requests the image counts; a failure changes no table |
| AdminProjects.AdminProjectsPage.ReceiveImageCounts | realestate_frontend/src/pages/AdminProjects.js:62-69 | while mounted, one key per requested id, holding the count of its last answer |
| AdminProjects.AdminProjectsPage.SortBy | realestate_frontend/src/pages/AdminProjects.js:122-131 | the config becomes `NextConfig` of the old one and the loaded list is shown re-sorted by it; because `loadData` depends on `sortConfig` (lines 31-47, 77-81), loading rises and the first 200 projects are requested again |
| Csv.Escape | realestate_frontend/src/pages/AdminProperties.js:200 | every quote is doubled and nothing else changes length: the result is longer by exactly the number of quotes, and text without quotes is unchanged (`Csv.QuotedReadsBack` shows the reader undoes it) |
| Csv.QuotedReadsBack | realestate_frontend/src/pages/AdminProperties.js:200 | a field with its quotes doubled, then a closing quote, reads back as the original text |
| Csv.FieldReadsBack | realestate_frontend/src/pages/AdminProperties.js:198-208 | a readable cell followed by a separator or the end reads back as its text |
| Csv.RecordReadsBack | realestate_frontend/src/pages/AdminProperties.js:210 | `row.join(",")` of readable cells reads back as the cells' texts |
| Csv.TableReadsBack | realestate_frontend/src/pages/AdminProperties.js:210 | lines of readable cells joined by line feeds read back as the values of every line, in order |
| Csv.HeaderAndLinesReadBack | realestate_frontend/src/pages/AdminEnquiryList.js:94 | a header line and record lines read back as the header names, then each record's values |
| Csv.PlainRowReadable | realestate_frontend/src/pages/AdminProperties.js:186-196 | header names free of separators form a line that reads back as those names |
| Csv.NumberIsPlainSafe | realestate_frontend/src/pages/AdminProperties.js:199 | a printed integer never needs quoting |
| Text.Trim | realestate_frontend/src/pages/Sell.js:49 | trimming leaves nothing exactly when the text is blank, and leaves text with no white space as it is |
| Text.ToLower | realestate_frontend/src/pages/Properties.js:91 | lower-casing keeps the length and maps each character on its own |
| Text.IncludesIffOccurs | realestate_frontend/src/pages/Properties.js:95 | `includes` holds exactly when the query occurs at some position |
| Text.NumberOfString | realestate_frontend/src/pages/Properties.js:68 | `Number(String(n))` is `n` for every integer |
| Text.IntToStringInjective | realestate_frontend/src/pages/AdminProjectView.js:79 | different integers print differently |
| Validation.FirstFailing | realestate_frontend/src/pages/Sell.js:48-62 | nothing is reported exactly when every check passes; otherwise the report is the message of a failing check |
| Validation.FirstFailingAt | realestate_frontend/src/pages/ContactAgent.js:24-32 | the report is the message of the first failing check |
| Listing.TotalPagesOrOne | realestate_frontend/src/pages/Properties.js:100 | `totalPages \|\| 1` is never 0, so the pager always has a page |
| Listing.ReadingsAgree | realestate_frontend/src/pages/AdminProperties.js:52-56 | the three ways the pages read a list response agree on a page object with content and on an empty body, and differ only on the odd shapes |
| Listing.Rows | realestate_frontend/src/pages/AdminProperties.js:52-56 | a page's `content` (empty when absent), else a bare array, else nothing |
| Listing.ContentOrEmpty | realestate_frontend/src/pages/Home.js:29 | the `content`-or-empty reading yields rows only where `Rows` yields the same rows, and nothing for a bare array |
| Listing.ContentOrData | realestate_frontend/src/pages/AdminDashboard.js:42 | the `content`-or-body reading is a list exactly unless the answer is a page without `content`, and then it is `Rows` |
| PropertiesPage.PageSize | realestate_frontend/src/pages/Properties.js:36-41 | 15 cards exactly from width 1024, 5 exactly below 600, 9 otherwise |
| PropertiesPage.PageSizeMonotone | realestate_frontend/src/pages/Properties.js:36-41 | a wider window never shows fewer cards |
| PropertiesPage.BlankQueryIsNoFilter | realestate_frontend/src/pages/Properties.js:55-61 | with a blank search text, search mode is on exactly when some filter field is filled in |
| PropertiesPage.HasFilter | realestate_frontend/src/pages/Properties.js:55-61 | no filter exactly when every field is empty and the search text is blank |
| PropertiesPage.NumberOrNull | realestate_frontend/src/pages/Properties.js:68-71 | an empty field is sent as null |
| PropertiesPage.BuildSearchParams | realestate_frontend/src/pages/Properties.js:65-74 | empty fields go as null, the numeric fields through `Number`, the type always null, page and size as they are |
| PropertiesPage.NumericFieldRoundTrip | realestate_frontend/src/pages/Properties.js:68 | a price typed as an integer reaches the search as that integer |
| PropertiesPage.SearchResults | realestate_frontend/src/pages/Properties.js:76-97 | the successive filters of the search branch equal one filter by all conditions: an order-preserving subsequence of the answer |
| PropertiesPage.PageResults | realestate_frontend/src/pages/Properties.js:110-117 | the plain branch keeps the approved listings of the requested type from `content`, in order |
| PropertiesPage.ShownExactly | realestate_frontend/src/pages/Properties.js:82-97 | a fetched listing is shown exactly when it is approved, of the requested type and, for a non-blank query, contains the lower-cased query in a present title, description, city or area |
| PropertiesPage.TypeFilterExcludes | realestate_frontend/src/pages/Properties.js:84-88 | `?type=sale` shows only sales, `?type=rent` only rentals, and any other type filters nothing |
| PropertiesPage.PropertiesPage.constructor | realestate_frontend/src/pages/Properties.js:16-43 | page 0 of 1, empty filters, the page size of the window |
| PropertiesPage.PropertiesPage.LoadData | realestate_frontend/src/pages/Properties.js:52-74 | loading rises; the request is a search exactly when a filter is set, with the built parameters, and otherwise a plain page request |
| PropertiesPage.RequestFor | realestate_frontend/src/pages/Properties.js:54-108 | a search exactly when a filter is set, with the built parameters, otherwise a plain page request |
| PropertiesPage.PropertiesPage.Receive | realestate_frontend/src/pages/Properties.js:75-122 | an answer sets the list to the branch's filtered result and the page count to `totalPages \|\| 1`; a failure only ends loading |
| PropertiesPage.PropertiesPage.Prev | realestate_frontend/src/pages/Properties.js:193-199 | the page drops by one except at 0 and stays within the known pages; exactly when it changed, the effect on `[page, filterType, pageSize]` (lines 124-126) raises loading and returns the request for the new page |
| PropertiesPage.PropertiesPage.Next | realestate_frontend/src/pages/Properties.js:206-212 | the page rises by one only while a next page exists, so it stays below the page count; exactly when it changed, loading rises and the request for the new page is returned (lines 124-126) |
| PropertiesPage.PropertiesPage.Resize | realestate_frontend/src/pages/Properties.js:45-49 | the page size follows the new width; exactly when it changed, loading rises and the request with the new size is returned (lines 124-126) |
| PropertiesPage.PropertiesPage.TypeQuery | realestate_frontend/src/pages/Properties.js:128-130 | the search text is stored; exactly when it changed, loading rises and the request built with it is returned |
| PropertiesPage.PropertiesPage.SetFilters | realestate_frontend/src/pages/Properties.js:175 | the filters are stored and nothing is fetched, since no effect depends on them |
| Home.RecommendationsCorrect | realestate_frontend/src/pages/Home.js:29-31 | at most 10, all approved, by non-increasing price, each drawn from the approved listings at most once, all of them when 10 or fewer, and none left out priced above one kept |
| Home.Recommendations | realestate_frontend/src/pages/Home.js:29-31 | ten recommendations, or every approved listing when there are fewer |
| Home.Ranked | realestate_frontend/src/pages/Home.js:29-31 | every approved listing is ranked |
| Home.RankedFacts | realestate_frontend/src/pages/Home.js:30-31 | the ranking is a permutation of the approved listings in non-increasing price order, and the recommendations are its first entries |
| Home.LeftOutRanked | realestate_frontend/src/pages/Home.js:31 | the approved listings are exactly the recommendations plus the rest of the ranking |
| Home.RecommendedAreApproved | realestate_frontend/src/pages/Home.js:30 | only approved listings are recommended |
| Home.RecommendedDescending | realestate_frontend/src/pages/Home.js:31 | the recommendations are in non-increasing price order |
| Home.RecommendedFromApproved | realestate_frontend/src/pages/Home.js:29-31 | at most 10, a sub-multiset of the approved listings, and all of them when there are 10 or fewer |
| Home.LeftOutCheaper | realestate_frontend/src/pages/Home.js:31 | an approved listing left out costs no more than any recommended one |
| EnquiryList.FilterByProperty | realestate_frontend/src/pages/AdminEnquiryList.js:21-27 | without a filter the list is unchanged; with one the result is a subsequence of the list |
| EnquiryList.FilterKeepsExactly | realestate_frontend/src/pages/AdminEnquiryList.js:23-27 | with `?property=n`, exactly the enquiries about property n stay, in list order |
| EnquiryList.NonNumericFilterHidesAll | realestate_frontend/src/pages/AdminEnquiryList.js:25 | a filter that is not a number hides every enquiry |
| EnquiryList.ForProperty | realestate_frontend/src/pages/AdminEnquiryList.js:25 | an enquiry matches only a numeric filter, and only when it names a property |
| EnquiryList.EnquiryCells | realestate_frontend/src/pages/AdminEnquiryList.js:83-92 | a line has the 8 columns of the header; buyer name, message and property title are quoted, the rest raw |
| EnquiryList.EnquiryLines | realestate_frontend/src/pages/AdminEnquiryList.js:83 | one line per enquiry, in list order |
| EnquiryList.FileName | realestate_frontend/src/pages/AdminEnquiryList.js:100-102 | `enquiries_property_<filter>.csv` when filtered, else `enquiries.csv` |
| EnquiryList.ExportEnquiriesCsv | realestate_frontend/src/pages/AdminEnquiryList.js:66-103 | an empty list gives the alert "No enquiries available" and no file; otherwise a file with that name |
| EnquiryList.EnquiryCellsReadable | realestate_frontend/src/pages/AdminEnquiryList.js:83-92 | a line whose raw fields hold no separator reads back as its eight values |
| EnquiryList.HeadersReadable | realestate_frontend/src/pages/AdminEnquiryList.js:72-81 | the header line reads back as its eight names |
| EnquiryList.ExportReadsBack | realestate_frontend/src/pages/AdminEnquiryList.js:72-94 | reading the file gives the header, then one row per enquiry in list order holding its values |
| EnquiryList.StatusAction | realestate_frontend/src/pages/AdminEnquiryList.js:148-166 | "Move to APPROVED" exactly for a sold property, "Mark as SOLD" otherwise |
| EnquiryList.EnquiryListPage.constructor | realestate_frontend/src/pages/AdminEnquiryList.js:13-16 | no enquiries, loading, the route's filter |
| EnquiryList.EnquiryListPage.Load | realestate_frontend/src/pages/AdminEnquiryList.js:18-34 | an answer with a body sets the list to the filtered `content` (empty when there is none); a failure or a missing body keeps the list; loading ends either way |
| Dashboard.StatusCount | realestate_frontend/src/pages/AdminDashboard.js:59-61 | a status count never exceeds the number of listings |
| Dashboard.DistinctStatusesAddUp | realestate_frontend/src/pages/AdminDashboard.js:59-61 | three different statuses count at most all the listings together |
| Dashboard.EnquiryCountsAgree | realestate_frontend/src/pages/AdminDashboard.js:46-50 | the dashboard's enquiry total and the property table's per-property count read an answer the same way |
| Dashboard.EnquiryCount | realestate_frontend/src/pages/AdminDashboard.js:46-50 | the total is negative only when the answer's own `totalElements` is |
| Dashboard.LoadStats | realestate_frontend/src/pages/AdminDashboard.js:38-63 | totals exist exactly when all three requests succeeded and the property answer yields a list (its `content`, or the body itself); then properties is that list's length, pending + approved + rejected is at most that, enquiries follows the property table's count rule, and the project total is there exactly when the project answer yields a list |
| Dashboard.CeilDiv40 | realestate_frontend/src/pages/AdminDashboard.js:25 | the least integer at least `target / 40` |
| Dashboard.Step | realestate_frontend/src/pages/AdminDashboard.js:25 | the step is at least 1, and 40 steps reach any positive target |
| Dashboard.Animate | realestate_frontend/src/pages/AdminDashboard.js:23-34 | the shown values are every multiple of the step below the target, in increasing order, then the target itself, so the count-up runs until it reaches the target; a target of 1 or less shows at once, and a positive one within 40 values |
| Sell.Checks | realestate_frontend/src/pages/Sell.js:49-59 | one check per required field, nine in all (their order is pinned down by `PhoneReportedFirst` and `PincodeReportedLast`) |
| Sell.ChecksPassIffFilled | realestate_frontend/src/pages/Sell.js:49-61 | every check passes exactly when every required field is filled in |
| Sell.LastCheckFails | realestate_frontend/src/pages/Sell.js:59 | when only the pincode check fails, its message is reported |
| Sell.Validate | realestate_frontend/src/pages/Sell.js:48-62 | nothing is reported exactly when the form is complete |
| Sell.PhoneReportedFirst | realestate_frontend/src/pages/Sell.js:49 | a blank phone is reported before anything else |
| Sell.PincodeReportedLast | realestate_frontend/src/pages/Sell.js:59 | with everything else filled in, a blank pincode is the one reported |
| Sell.PayloadNumbers | realestate_frontend/src/pages/Sell.js:81-88 | numbers typed as integers reach `addProperty` as those numbers, an empty area as 0, with the seller id from the upsert |
| Sell.Files | realestate_frontend/src/pages/Sell.js:96 | the uploaded files are the staged ones, in staged order |
| Sell.Submission | realestate_frontend/src/pages/Sell.js:75-108 | seller upsert, then property create with the returned seller id, then upload exactly when both succeeded and images are staged; any failure gives the one generic alert and no success |
| Sell.SellPage.constructor | realestate_frontend/src/pages/Sell.js:13-43 | empty form, no images, not submitting |
| Sell.SellPage.BeginSubmit | realestate_frontend/src/pages/Sell.js:67-73 | ignored while submitting; an incomplete form gives its message and leaves the flag down; a complete one raises it |
| Sell.SellPage.FinishSubmit | realestate_frontend/src/pages/Sell.js:75-108 | the calls and events are those of `Submission`, and the flag is down afterwards |
| Sell.SellPage.StageFiles | realestate_frontend/src/pages/Sell.js:307-313 | the chosen files are staged after the ones already there |
| Sell.SellPage.DropImage | realestate_frontend/src/pages/Sell.js:325-333 | the dragged image lands at the drop index; same length, same images |
| Sell.SellPage.RemoveImage | realestate_frontend/src/pages/Sell.js:339-341 | exactly the image at that index is dropped |
| Sell.MoveBack | realestate_frontend/src/pages/Sell.js:329-331 | dropping an image back where it came from restores the order |
| Lists.Move | realestate_frontend/src/pages/Sell.js:329-331 | a move keeps the length and the images, and puts the moved one at the target index |
| Lists.RemoveAt | realestate_frontend/src/pages/Sell.js:340 | removal shortens by one and keeps the other elements in order |
| Lists.Without | realestate_frontend/src/pages/Wishlist.js:41 | no occurrence of the id is left, every other element of the input is still there, nothing new appears, and an absent id changes nothing |
| Lists.Keep | realestate_frontend/src/pages/Properties.js:82 | the result is no longer than the input and every kept element satisfies the condition |
| Lists.KeepMembers | realestate_frontend/src/pages/Properties.js:82 | an element is kept exactly when it is in the input and satisfies the condition |
| Lists.KeepKeep | realestate_frontend/src/pages/Properties.js:82-97 | filtering twice is filtering once by both conditions |
| ProjectAdd.ProjectAddPage.constructor | realestate_frontend/src/pages/AdminProjectAdd.js:8-19 | the initial form, nothing staged |
| ProjectAdd.ProjectAddPage.HandleChange | realestate_frontend/src/pages/AdminProjectAdd.js:21-23 | only the named input changes, to the typed value |
| ProjectAdd.ProjectAddPage.HandleImageSelect | realestate_frontend/src/pages/AdminProjectAdd.js:25-32 | the chosen files replace the staged ones, with one preview per file |
| ProjectAdd.ProjectAddPage.HandleSubmit | realestate_frontend/src/pages/AdminProjectAdd.js:34-56 | create comes first; a missing or zero id means the failure alert and no upload; upload exactly when an id came back and images are staged; success alerts and goes to the project list; any failure alerts once |
| ProjectEdit.LastSegment | realestate_frontend/src/pages/AdminProjectEdit.js:17 | the id is a suffix of the path holding no '/', preceded by '/' unless it is the whole path |
| ProjectEdit.SegmentAfterSlash | realestate_frontend/src/pages/AdminProjectEdit.js:17 | the id of `<prefix>/<id>` is `<id>` |
| ProjectEdit.TrailingSlash | realestate_frontend/src/pages/AdminProjectEdit.js:17 | a trailing slash gives an empty id |
| ProjectEdit.ProjectEditPage.constructor | realestate_frontend/src/pages/AdminProjectEdit.js:17-22 | the id is the path's last segment; the form is `{}` and nothing is staged |
| ProjectEdit.ProjectEditPage.LoadProject | realestate_frontend/src/pages/AdminProjectEdit.js:29-32 | the answer becomes the form; a failure has no handler, so there is no alert and the form keeps what it held, `{}` before any load |
| ProjectEdit.ProjectEditPage.HandleChange | realestate_frontend/src/pages/AdminProjectEdit.js:39-40 | only the named input changes |
| ProjectEdit.ProjectEditPage.HandleNewImages | realestate_frontend/src/pages/AdminProjectEdit.js:42-48 | the chosen files replace the staged ones, one preview per file |
| ProjectEdit.ProjectEditPage.HandleSave | realestate_frontend/src/pages/AdminProjectEdit.js:50-65 | update first, upload exactly when it succeeded and files are staged; success alerts and reloads; a failure at either step alerts once |
| Ui.Previews | realestate_frontend/src/pages/AdminProjectAdd.js:30 | one object URL per file, in order |
| Ui.ChangedOnlyIsUpdate | realestate_frontend/src/pages/AdminProjectAdd.js:22 | the single-field frame is exactly `{ ...form, [name]: value }` |
| EditProperty.SaveChecks | realestate_frontend/src/pages/AdminEditProperty.js:98-102 | three checks: the title, the sale price and the monthly rent |
| EditProperty.SaveChecksPass | realestate_frontend/src/pages/AdminEditProperty.js:98-102 | every check passes exactly when the title is set and the amount the listing type needs is set |
| EditProperty.SaveError | realestate_frontend/src/pages/AdminEditProperty.js:98-102 | no alert exactly when the property can be saved |
| EditProperty.TitleFirst | realestate_frontend/src/pages/AdminEditProperty.js:98 | a missing title is reported first, whatever the type |
| EditProperty.ClearedSalePrice | realestate_frontend/src/pages/AdminEditProperty.js:99-100 | a sale whose price input was cleared (`Number("")` is 0) cannot be saved |
| EditProperty.RentIgnoresPrice | realestate_frontend/src/pages/AdminEditProperty.js:101-102 | a rental is judged on its rent alone, whatever its price |
| EditProperty.EditPropertyPage.constructor | realestate_frontend/src/pages/AdminEditProperty.js:20-25 | no property yet, not saving, nothing staged |
| EditProperty.EditPropertyPage.Load | realestate_frontend/src/pages/AdminEditProperty.js:33-40 | an answer replaces the property; a failure alerts and keeps it |
| EditProperty.EditPropertyPage.HandleChange | realestate_frontend/src/pages/AdminEditProperty.js:76-78 | exactly one top-level field changes; address and seller stay |
| EditProperty.EditPropertyPage.HandleNumberChange | realestate_frontend/src/pages/AdminEditProperty.js:258 | a numeric input stores `Number` of its text in that field alone |
| EditProperty.EditPropertyPage.HandleAddressChange | realestate_frontend/src/pages/AdminEditProperty.js:80-85 | one address field changes; the other address fields and the rest stay |
| EditProperty.EditPropertyPage.HandleSellerChange | realestate_frontend/src/pages/AdminEditProperty.js:87-92 | one seller field changes; the other seller fields and the rest stay |
| EditProperty.EditPropertyPage.BeginSave | realestate_frontend/src/pages/AdminEditProperty.js:97-104 | ignored while saving (the button is disabled); a failed check alerts and leaves the flag alone; otherwise the flag rises and the current property is sent |
| EditProperty.EditPropertyPage.FinishSave | realestate_frontend/src/pages/AdminEditProperty.js:106-114 | one update call; success alerts and opens the property page, failure alerts; the flag is down afterwards |
| EditProperty.EditPropertyPage.SelectFiles | realestate_frontend/src/pages/AdminEditProperty.js:219 | the chosen files replace the staged ones |
| EditProperty.EditPropertyPage.UploadNewImages | realestate_frontend/src/pages/AdminEditProperty.js:146-155 | nothing at all without staged files; success clears them and reloads; a failure alerts and keeps them |
| ContactAgent.FirstAtSign | realestate_frontend/src/pages/ContactAgent.js:28 | the first '@' from a position, or the end |
| ContactAgent.LastDot | realestate_frontend/src/pages/ContactAgent.js:28 | the last '.' up to a position, or -1 |
| ContactAgent.EmailPatternMeaning | realestate_frontend/src/pages/ContactAgent.js:28 | `^\S+@\S+\.\S+$` matches exactly the texts with no white space of the form name@domain.end, all parts non-empty |
| ContactAgent.ValidEmailIffShape | realestate_frontend/src/pages/ContactAgent.js:28 | the blank test adds nothing: an email passes exactly when it has that shape |
| ContactAgent.PlainEmailAccepted | realestate_frontend/src/pages/ContactAgent.js:28 | `a@b.co` passes |
| ContactAgent.SpacedEmailRejected | realestate_frontend/src/pages/ContactAgent.js:28 | `a b@c.d` fails |
| ContactAgent.Checks | realestate_frontend/src/pages/ContactAgent.js:25-30 | one check per field, four in all |
| ContactAgent.ChecksPassIffAll | realestate_frontend/src/pages/ContactAgent.js:25-31 | every check passes exactly when all four fields pass |
| ContactAgent.Validate | realestate_frontend/src/pages/ContactAgent.js:24-32 | nothing is reported exactly when the form can be sent |
| ContactAgent.PhoneCheckFirstFailing | realestate_frontend/src/pages/ContactAgent.js:26 | with the name present and the phone failing, the phone message is reported |
| ContactAgent.PhoneBeforeEmail | realestate_frontend/src/pages/ContactAgent.js:26-27 | a phone that is not ten characters long is reported once the name is there, before the email is looked at |
| ContactAgent.ContactAgentPage.constructor | realestate_frontend/src/pages/ContactAgent.js:10-18 | an empty form for `Number(id)`, not sending |
| ContactAgent.ContactAgentPage.HandleChange | realestate_frontend/src/pages/ContactAgent.js:20-21 | only the named input changes; the property id stays |
| ContactAgent.ContactAgentPage.BeginSubmit | realestate_frontend/src/pages/ContactAgent.js:35-41 | ignored while sending; an invalid form gives its message and sends nothing; a valid one raises the flag |
| ContactAgent.ContactAgentPage.FinishSubmit | realestate_frontend/src/pages/ContactAgent.js:42-59 | one send; success alerts and empties the form for the same property; failure alerts and keeps it; the flag is down afterwards |
| WishlistStore.BrowserStorage.constructor | realestate_frontend/src/components/PropertyCard.js:23 | both slots empty, no events raised |
| WishlistStore.BrowserStorage.Saved | realestate_frontend/src/components/PropertyCard.js:23 | a missing slot reads as the empty list |
| WishlistStore.Toggle | realestate_frontend/src/components/PropertyCard.js:29-37 | the id is in the new list exactly when it was not in the old one |
| WishlistStore.ToggleKeepsOthers | realestate_frontend/src/components/PropertyCard.js:32-35 | the other ids keep their presence and their order |
| WishlistStore.ToggleTwice | realestate_frontend/src/components/PropertyCard.js:27-40 | toggling twice restores every id's membership |
| WishlistStore.ToggleNoDup | realestate_frontend/src/components/PropertyCard.js:31-36 | a list without duplicates stays without duplicates |
| WishlistStore.WithoutTwice | realestate_frontend/src/pages/Wishlist.js:41 | removing an id twice is removing it once |
| PropertyCard.MainImage | realestate_frontend/src/components/PropertyCard.js:14-17 | never empty; the placeholder when there are no images |
| PropertyCard.FirstUrlShown | realestate_frontend/src/components/PropertyCard.js:14-16 | a first image with a URL shows that URL |
| PropertyCard.PropertyCardView.constructor | realestate_frontend/src/components/PropertyCard.js:20-25 | the heart is on exactly when the id is saved |
| PropertyCard.PropertyCardView.ToggleWishlist | realestate_frontend/src/components/PropertyCard.js:27-40 | the slot holds the toggled list, the heart agrees with it again, and the session slot and events are untouched |
| PropertyDetails.ToggleByFlag | realestate_frontend/src/pages/PropertyDetails.js:33-39 | when liked the id is gone; when not, it is appended at the end without a membership check |
| PropertyDetails.AgreeingFlagIsToggle | realestate_frontend/src/pages/PropertyDetails.js:35-39 | when the flag agrees with the list, the page toggles as the card does |
| PropertyDetails.FlagToggleKeepsOthers | realestate_frontend/src/pages/PropertyDetails.js:33-41 | the other ids are left where they were |
| PropertyDetails.StaleFlagDuplicates | realestate_frontend/src/pages/PropertyDetails.js:35-38 | a stale flag can store an id twice |
| PropertyDetails.PropertyDetailsPage.constructor | realestate_frontend/src/pages/PropertyDetails.js:6-13 | the key is `Number(id)`; nothing loaded, not liked |
| PropertyDetails.PropertyDetailsPage.Load | realestate_frontend/src/pages/PropertyDetails.js:16-28 | on success the property is shown and the flag read from the stored list; loading ends either way |
| PropertyDetails.PropertyDetailsPage.ToggleWishlist | realestate_frontend/src/pages/PropertyDetails.js:32-44 | the slot holds the list toggled by the flag, the flag flips, one storage event carries the new list, and a flag agreeing with a duplicate-free list keeps agreeing |
| WishlistPage.Collected | realestate_frontend/src/pages/Wishlist.js:15-23 | at most one item per stored id |
| WishlistPage.AllFetched | realestate_frontend/src/pages/Wishlist.js:16-19 | when every fetch brings data, the items are the properties of the stored ids, in order |
| WishlistPage.FailureSkipped | realestate_frontend/src/pages/Wishlist.js:20-22 | a failed fetch leaves no trace |
| WishlistPage.WishlistPage.constructor | realestate_frontend/src/pages/Wishlist.js:9 | no items |
| WishlistPage.WishlistPage.LoadWishlist | realestate_frontend/src/pages/Wishlist.js:12-25 | every stored id is fetched in order and the items are the collected answers, no more than the ids |
| WishlistPage.WishlistPage.RemoveItem | realestate_frontend/src/pages/Wishlist.js:39-47 | both slots hold the list without the id; no shown item has it; removing an absent id changes no item |
| ProjectView.KeyNameInjective | realestate_frontend/src/pages/AdminProjectView.js:239-240 | different actions, or one action on different images, never share a flag |
| ProjectView.ProjectViewPage.constructor | realestate_frontend/src/pages/AdminProjectView.js:21-25 | no project or images loaded, no flag set |
| ProjectView.ProjectViewPage.LoadProject | realestate_frontend/src/pages/AdminProjectView.js:33-41 | the answer is shown; a failure alerts "Failed to load project" and keeps what was shown; the images and flags stay |
| ProjectView.ProjectViewPage.LoadImages | realestate_frontend/src/pages/AdminProjectView.js:43-50 | the answer replaces the images; a failure is silent and keeps them |
| ProjectView.ProjectViewPage.SetBtnLoading | realestate_frontend/src/pages/AdminProjectView.js:26-27 | the one flag is set and every other flag stays |
| ProjectView.ProjectViewPage.Begin | realestate_frontend/src/pages/AdminProjectView.js:56-122 | replace needs a file; a busy action returns at once; deletes ask for confirmation and stop when refused; only a started action raises its own flag |
| ProjectView.ProjectViewPage.Finish | realestate_frontend/src/pages/AdminProjectView.js:63-133 | each action's call, reload and alerts by outcome; its own flag is lowered whatever happened and no other flag changes |
| ProjectView.OtherActionsUnaffected | realestate_frontend/src/pages/AdminProjectView.js:78-122 | starting or finishing one action leaves every other action's flag as it was |
| PropertyView.StatusActions | realestate_frontend/src/pages/AdminPropertyView.js:141-190 | pending offers approve, reject, edit; approved offers reject, edit; rejected offers approve, edit; anything else nothing |
| PropertyView.NoMoveToSameStatus | realestate_frontend/src/pages/AdminPropertyView.js:160-190 | a property is never offered the move to the status it has |
| PropertyView.PropertyViewPage.constructor | realestate_frontend/src/pages/AdminPropertyView.js:17-18 | no preview open |
| PropertyView.PropertyViewPage.OpenPreview | realestate_frontend/src/pages/AdminPropertyView.js:36-38 | the preview shows the given image |
| PropertyView.PropertyViewPage.ClosePreview | realestate_frontend/src/pages/AdminPropertyView.js:40-42 | no preview |
| PropertyView.PropertyViewPage.HandleTouchStart | realestate_frontend/src/pages/AdminPropertyView.js:44-46 | the touch position is recorded |
| PropertyView.PropertyViewPage.HandleTouchEnd | realestate_frontend/src/pages/AdminPropertyView.js:48-58 | a swipe over 50 pixels moves one image, never past either end; a shorter one moves nothing; an index in range stays in range |
| AdminLayout.ProjectPagesHighlightProjects | realestate_frontend/src/components/AdminLayout.js:13-16 | a single project's pages keep the projects entry highlighted |
| AdminLayout.IsActive | realestate_frontend/src/components/AdminLayout.js:9-18 | an entry is highlighted on its own path; the dashboard and properties entries only there |
| AdminLayout.AtMostOneActive | realestate_frontend/src/components/AdminLayout.js:9-54 | for any path, at most one of the four sidebar entries is highlighted |

## Left out

- The HTTP transport and its token handling: each remote call is an answer passed in as a parameter.
- Concurrency: `Promise.all`, the interleaving of a `Begin…` and its `Finish…` with other handlers, and the timing of unmounting. The mounted guard is a plain flag.
- Timers (`setInterval` in the dashboard animation): only the sequence of shown values is modelled.
- The DOM: rendering, the Sortable reorder of the property editor, resize listeners, and the object-URL downloads behind the CSV buttons. Each CSV export is the text and file name it would download.
- `alert`, `confirm` and navigation are events. A confirmation's answer is a parameter.
- JavaScript numbers are integers or NaN. Decimal fractions, exponents, hexadecimal, `Infinity` and floating-point rounding are not modelled, and neither is `<` between values of different types.
- `toLowerCase` covers ASCII letters only. `toLocaleString` in the enquiry export is an opaque function parameter.
- JSON encoding of the storage slots is not modelled: a slot holds a list of integer ids or nothing. Storage events from other tabs are left out; the wishlist page's refresh on such an event is `LoadWishlist` again.
- The row actions of the project table (delete, status change) are left out. So are the moves between sold and approved in the enquiry list, the approve and reject handlers of the property view page, the image delete/replace/reorder handlers of the property editor, and the image list and image delete of the project editor (`loadImages`, `handleDeleteImage`). Each is one request followed by an alert and a reload; only the property table's action alerts and in-flight guard are modelled.
- AdminProperties.ExportReadsBack: holds only when the fields written unquoted (type, city, status and the numbers) hold no comma, quote or line feed. The export does not quote them, so such a value shifts the columns when read back.
- AdminProjects.ExportReadsBack: holds only when location, status and type hold no comma, quote or line feed, for the same reason.
- EnquiryList.ExportReadsBack: holds only when phone, email and the formatted date hold no comma, quote or line feed, for the same reason.
- Sell.SellPage.DropImage: requires both indices in range. A drop whose drag data is not a tile index (`Number` gives NaN) is not modelled.
- PropertyDetails.PropertyDetailsPage.constructor: requires a numeric route id. With a non-numeric one, `Number(id)` is NaN, which is never stored.
- PropertyCard.PropertyCardView.constructor: requires a non-zero id, because the listing grids render a card only for a truthy id.
- PropertyView.PropertyViewPage.constructor: the page is modelled from the moment its property has loaded, with that property's image count. The mount fetch of the property (a failure is only logged and the page keeps showing its loading text) is not a member.
- PropertyView.PropertyViewPage.HandleTouchEnd: requires an open preview and at least one image. Touches are only handled inside the open preview.
- EditProperty.EditPropertyPage.BeginSave: the source has no `saving` check in `saveChanges`. The save button is disabled while saving, so a click while saving is modelled as ignored.
- Home.RecommendationsCorrect: a missing price sorts as 0. That is how `b.price - a.price` treats a null price. For an absent (undefined) price the comparator gives NaN, and the order then depends on the engine's sort.
