/**
 * The admin project table (pages/AdminProjects.js): the loaded projects, a
 * sorted copy, per-project image counts and the CSV export.
 */
module AdminProjects {
  import opened Wrappers
  import opened Text
  import opened Lists
  import opened Sorting
  import opened Csv
  import opened Listing
  import opened CountMerge

  datatype Column = Id | Title | Location | Price | Status

  /** Lower-cased text for title, location and status (missing as empty), `priceBigint ?? 0` for price, the raw id otherwise. */
  function SortKeyOf(c: Column, p: Project): (r: SortKey)
    ensures r.Num? <==> c.Id? || c.Price?
  {
    match c
    case Title => Text(ToLower(OrEmpty(p.title)))
    case Location => Text(ToLower(OrEmpty(p.location)))
    case Status => Text(ToLower(OrEmpty(p.status)))
    case Price => Num(NumOrZero(p.priceBigint))
    case Id => Num(p.id)
  }

  function KeyFn(c: Column): Project -> SortKey {
    p => SortKeyOf(c, p)
  }

  /** `[...data].sort(comparator)` for the configured column and direction. */
  function ApplySorting(data: seq<Project>, config: SortConfig<Column>): (r: seq<Project>)
    ensures |r| == |data|
  {
    SortByKey(data, KeyFn(config.key), config.direction)
  }

  /** The sorted copy is a permutation of the list, in the column's order, ties kept in list order. */
  lemma {:induction false} ApplySortingCorrect(data: seq<Project>, config: SortConfig<Column>)
    ensures multiset(ApplySorting(data, config)) == multiset(data)
    ensures Sorted(ApplySorting(data, config), KeyFn(config.key), config.direction)
    ensures forall k :: Keep(ApplySorting(data, config), HasKey(KeyFn(config.key), k))
                     == Keep(data, HasKey(KeyFn(config.key), k))
  {
    SortByKeyCorrect(data, KeyFn(config.key), config.direction);
  }

  /** Projects without a price sort as if priced 0, below every positive price when ascending. */
  lemma {:induction false} MissingPriceSortsAsZero(p: Project, q: Project)
    requires p.priceBigint.None? && q.priceBigint.Some? && q.priceBigint.value > 0
    ensures Compare(SortKeyOf(Price, p), SortKeyOf(Price, q), Asc) == -1
  {
  }

  /** `Array.isArray(r.data) ? r.data.length : 0`, and 0 for a failed request. */
  function ImageCountOf(answer: Remote<Body<Image>>): (r: nat)
    ensures answer.Ok? && answer.value.Items? ==> r == |answer.value.items|
    ensures !(answer.Ok? && answer.value.Items?) ==> r == 0
  {
    if answer.Ok? && answer.value.Items? then |answer.value.items| else 0
  }

  function CountsOf(answers: seq<(int, Remote<Body<Image>>)>): (r: seq<IdCount>)
    ensures |r| == |answers|
    ensures forall i :: 0 <= i < |answers| ==> r[i] == IdCount(answers[i].0, ImageCountOf(answers[i].1))
  {
    seq(|answers|, i requires 0 <= i < |answers| => IdCount(answers[i].0, ImageCountOf(answers[i].1)))
  }

  function ProjectIds(ps: seq<Project>): (r: seq<int>)
    ensures |r| == |ps| && forall i :: 0 <= i < |ps| ==> r[i] == ps[i].id
  {
    seq(|ps|, i requires 0 <= i < |ps| => ps[i].id)
  }

  // ------------------------------------------------ CSV export

  function HeaderNames(): seq<string> {
    ["ID", "Title", "Location", "Price", "Status", "Type", "ImageCount"]
  }

  function Headers(): seq<Cell> {
    PlainRow(HeaderNames())
  }

  /** One line: the title quoted, printing `undefined` when missing; the other fields raw, a missing one empty; `|| 0` for the count. */
  function ProjectCells(p: Project, counts: map<int, int>): (r: seq<Cell>)
    ensures |r| == |Headers()|
    ensures r[1] == Quoted(if p.title.Some? then p.title.value else "undefined")
    ensures forall j :: 0 <= j < |r| && j != 1 ==> r[j].Plain?
  {
    [Plain(IntToString(p.id)),
     Quoted(p.title.GetOr("undefined")),
     Plain(OrEmpty(p.location)),
     Plain(if p.priceBigint.Some? then IntToString(p.priceBigint.value) else ""),
     Plain(OrEmpty(p.status)),
     Plain(OrEmpty(p.kind)),
     Plain(IntToString(if p.id in counts then counts[p.id] else 0))]
  }

  function ProjectLines(sorted: seq<Project>, counts: map<int, int>): (r: seq<seq<Cell>>)
    ensures |r| == |sorted| && forall i :: 0 <= i < |sorted| ==> r[i] == ProjectCells(sorted[i], counts)
  {
    seq(|sorted|, i requires 0 <= i < |sorted| => ProjectCells(sorted[i], counts))
  }

  /** `exportCSV`: the header line, a line feed, then the project lines joined by line feeds. */
  function ExportProjectsCsv(sorted: seq<Project>, counts: map<int, int>): (r: Export)
    ensures r.NoFile? <==> sorted == []
    ensures r.NoFile? ==> r.alert == "No data"
    ensures r.File? ==> r.name == "projects.csv"
  {
    if |sorted| == 0 then NoFile("No data")
    else File("projects.csv", RenderRow(Headers()) + "\n" + JoinWith(RenderRows(ProjectLines(sorted, counts)), '\n'))
  }

  /** Gluing the header on by hand gives the same text as joining all lines, because the list is not empty. */
  lemma {:induction false} ExportIsTable(sorted: seq<Project>, counts: map<int, int>)
    requires sorted != []
    ensures ExportProjectsCsv(sorted, counts).text == RenderTable([Headers()] + ProjectLines(sorted, counts))
  {
    var lines := ProjectLines(sorted, counts);
    assert RenderRows([Headers()] + lines)[1..] == RenderRows(lines) by {
      assert ([Headers()] + lines)[1..] == lines;
    }
  }

  predicate RawFieldsSafe(p: Project) {
    PlainSafe(OrEmpty(p.location)) && PlainSafe(OrEmpty(p.status)) && PlainSafe(OrEmpty(p.kind))
  }

  function ProjectValues(p: Project, counts: map<int, int>): seq<string> {
    [IntToString(p.id), p.title.GetOr("undefined"), OrEmpty(p.location),
     if p.priceBigint.Some? then IntToString(p.priceBigint.value) else "",
     OrEmpty(p.status), OrEmpty(p.kind), IntToString(if p.id in counts then counts[p.id] else 0)]
  }

  lemma {:induction false} ProjectCellsReadable(p: Project, counts: map<int, int>)
    requires RawFieldsSafe(p)
    ensures RowReadable(ProjectCells(p, counts))
    ensures Texts(ProjectCells(p, counts)) == ProjectValues(p, counts)
  {
    LeadingCellsReadable(p, counts);
    TrailingCellsReadable(p, counts);
  }

  lemma {:induction false} LeadingCellsReadable(p: Project, counts: map<int, int>)
    requires RawFieldsSafe(p)
    ensures forall j :: 0 <= j < 4 ==> CellReadable(ProjectCells(p, counts)[j])
  {
    NumberIsPlainSafe(p.id);
    if p.priceBigint.Some? { NumberIsPlainSafe(p.priceBigint.value); }
  }

  lemma {:induction false} TrailingCellsReadable(p: Project, counts: map<int, int>)
    requires RawFieldsSafe(p)
    ensures forall j :: 4 <= j < 7 ==> CellReadable(ProjectCells(p, counts)[j])
  {
    NumberIsPlainSafe(if p.id in counts then counts[p.id] else 0);
  }

  /** The header names hold no comma, quote or line feed (checked four names at a time). */
  lemma {:induction false} LeadingNamesSafe()
    ensures forall j :: 0 <= j < 4 ==> PlainSafe(HeaderNames()[j])
  {
  }

  lemma {:induction false} TrailingNamesSafe()
    ensures forall j :: 4 <= j < |HeaderNames()| ==> PlainSafe(HeaderNames()[j])
  {
  }

  lemma {:induction false} HeadersReadable()
    ensures RowReadable(Headers()) && Texts(Headers()) == HeaderNames()
  {
    LeadingNamesSafe();
    TrailingNamesSafe();
    PlainRowReadable(HeaderNames());
  }

  /** Reading the file back gives the 7 header names, then one line per project in table order. */
  lemma {:induction false} ExportReadsBack(sorted: seq<Project>, counts: map<int, int>)
    requires sorted != []
    requires forall i :: 0 <= i < |sorted| ==> RawFieldsSafe(sorted[i])
    ensures |ParseTable(ExportProjectsCsv(sorted, counts).text)| == |sorted| + 1
    ensures ParseTable(ExportProjectsCsv(sorted, counts).text)[0]
         == ["ID", "Title", "Location", "Price", "Status", "Type", "ImageCount"]
    ensures forall i :: 0 <= i < |sorted| ==> ParseTable(ExportProjectsCsv(sorted, counts).text)[i + 1] == ProjectValues(sorted[i], counts)
  {
    var lines := ProjectLines(sorted, counts);
    forall i | 0 <= i < |sorted|
      ensures RowReadable(lines[i]) && Texts(lines[i]) == ProjectValues(sorted[i], counts)
    {
      ProjectCellsReadable(sorted[i], counts);
    }
    HeadersReadable();
    ExportIsTable(sorted, counts);
    HeaderAndLinesReadBack(Headers(), lines);
  }

  /** The request `loadData` sends: the first 200 projects. */
  datatype Fetch = GetProjects(page: int, size: int)

  const FirstProjects := GetProjects(0, 200)

  class AdminProjectsPage {
    var list: seq<Project>
    var sortedList: seq<Project>
    var imageCounts: map<int, int>
    var sortConfig: SortConfig<Column>
    var loading: bool
    var mounted: bool

    ghost predicate Valid()
      reads this
    {
      sortedList == ApplySorting(list, sortConfig)
    }

    constructor()
      ensures Valid() && mounted && !loading
      ensures list == [] && imageCounts == map[] && sortConfig == SortConfig(Id, Asc)
    {
      list := [];
      sortedList := [];
      imageCounts := map[];
      sortConfig := SortConfig(Id, Asc);
      loading := false;
      mounted := true;
    }

    method Unmount()
      modifies this
      ensures !mounted
      ensures list == old(list) && sortedList == old(sortedList) && imageCounts == old(imageCounts)
      ensures sortConfig == old(sortConfig) && loading == old(loading)
    {
      mounted := false;
    }

    /**
     * `loadData` once `FirstProjects` has answered: `content || []`; a
     * failure is only logged and the table keeps what it showed.
     */
    method LoadData(answer: Remote<Body<Project>>) returns (countRequests: seq<int>)
      requires Valid()
      modifies this
      ensures Valid()
      ensures sortConfig == old(sortConfig) && mounted == old(mounted) && imageCounts == old(imageCounts)
      ensures mounted ==> !loading
      ensures !mounted ==> list == old(list) && loading && countRequests == []
      ensures mounted && answer.Ok? ==> list == ContentOrEmpty(answer.value) && countRequests == ProjectIds(list)
      ensures answer.Failed? ==> list == old(list) && sortedList == old(sortedList) && countRequests == []
    {
      loading := true;
      countRequests := [];
      if answer.Ok? && mounted {
        var data := ContentOrEmpty(answer.value);
        list := data;
        sortedList := ApplySorting(data, sortConfig);
        countRequests := ProjectIds(data);
      }
      if mounted {
        loading := false;
      }
    }

    /** `loadImageCounts` once every request has answered: one entry per project id, the last answer for an id winning. */
    method ReceiveImageCounts(answers: seq<(int, Remote<Body<Image>>)>)
      modifies this
      ensures list == old(list) && sortedList == old(sortedList) && sortConfig == old(sortConfig)
      ensures loading == old(loading) && mounted == old(mounted)
      ensures !mounted ==> imageCounts == old(imageCounts)
      ensures mounted ==> imageCounts.Keys == set i | 0 <= i < |answers| :: answers[i].0
      ensures mounted ==> forall i :: 0 <= i < |answers| && (forall j :: i < j < |answers| ==> answers[j].0 != answers[i].0)
                            ==> imageCounts[answers[i].0] == ImageCountOf(answers[i].1)
    {
      if mounted {
        var counts := CountsOf(answers);
        var m := MergeCounts(counts);
        assert (set i | 0 <= i < |counts| :: counts[i].id) == set i | 0 <= i < |answers| :: answers[i].0;
        imageCounts := m;
        forall i | 0 <= i < |answers| && (forall j :: i < j < |answers| ==> answers[j].0 != answers[i].0)
          ensures m[answers[i].0] == ImageCountOf(answers[i].1)
        {
          assert LastFor(counts, i, |counts|);
        }
      }
    }

    /**
     * `sortBy(key)`: toggle or reset the direction and re-sort the loaded list.
     * The new `sortConfig` gives `loadData` a new identity, so the mount effect
     * runs it again: loading rises and `FirstProjects` is requested, whose
     * answer `LoadData` then takes.
     */
    method SortBy(key: Column) returns (reload: Fetch)
      requires Valid()
      modifies this
      ensures Valid()
      ensures sortConfig == NextConfig(old(sortConfig), key)
      ensures list == old(list) && imageCounts == old(imageCounts)
      ensures loading && reload == FirstProjects && mounted == old(mounted)
    {
      sortConfig := NextConfig(sortConfig, key);
      sortedList := ApplySorting(list, sortConfig);
      loading := true;
      reload := FirstProjects;
    }
  }
}
