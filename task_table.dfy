/**
 * The sprint task table: its squad, status and text filters, the column
 * sort, the eight-row pages and the CSV export, and the state its controls
 * update.
 */
module TaskTable {
  import opened Wrappers
  import opened Strings
  import opened Sorting
  import opened Lists
  import opened DashboardTypes

  const RowsPerPage: nat := 8

  /** The squad choices: each squad once, where it first occurs. */
  function SquadOptions(tasks: seq<TaskItem>): seq<string> {
    Distinct(Map(tasks, (t: TaskItem) => t.squad))
  }

  /** Every squad of the tasks is offered once, in order of first appearance. */
  lemma SquadOptionsOrder(tasks: seq<TaskItem>)
    ensures forall s :: s in SquadOptions(tasks) <==> exists t | t in tasks :: t.squad == s
    ensures NoDuplicates(SquadOptions(tasks))
    ensures forall i, j | 0 <= i < j < |SquadOptions(tasks)| ::
      (FirstIndex(Map(tasks, (t: TaskItem) => t.squad), SquadOptions(tasks)[i]) <
       FirstIndex(Map(tasks, (t: TaskItem) => t.squad), SquadOptions(tasks)[j]))
  {
    MapMembers(tasks, (t: TaskItem) => t.squad);
    forall i, j | 0 <= i < j < |SquadOptions(tasks)|
      ensures FirstIndex(Map(tasks, (t: TaskItem) => t.squad), SquadOptions(tasks)[i]) <
              FirstIndex(Map(tasks, (t: TaskItem) => t.squad), SquadOptions(tasks)[j])
    {
      DistinctFirstOccurrenceOrder(Map(tasks, (t: TaskItem) => t.squad), i, j);
    }
  }

  // ---------------------------------------------------------------------
  // Filtering

  /** The search text occurs in the key, summary or assignee, ignoring case. */
  predicate SearchHit(search: string, t: TaskItem) {
    var q := ToLower(search);
    Contains(ToLower(t.key), q) || Contains(ToLower(t.summary), q) || Contains(ToLower(t.assignee), q)
  }

  /** The three filters together; "all" and the empty search switch theirs off. */
  predicate Shown(squad: string, status: string, search: string, t: TaskItem) {
    (squad == "all" || t.squad == squad) &&
    (status == "all" || t.status == status) &&
    (search == "" || SearchHit(search, t))
  }

  /** `filtered`: the squad filter, then the status filter, then the search. */
  function FilterRows(tasks: seq<TaskItem>, squad: string, status: string, search: string): seq<TaskItem> {
    var bySquad := if squad != "all" then Filter(tasks, (t: TaskItem) => t.squad == squad) else tasks;
    var byStatus := if status != "all" then Filter(bySquad, (t: TaskItem) => t.status == status) else bySquad;
    if search != "" then Filter(byStatus, (t: TaskItem) => SearchHit(search, t)) else byStatus
  }

  /** The three filters in a row are one filter by `Shown`: an order-keeping sub-list. */
  lemma FilterRowsShown(tasks: seq<TaskItem>, squad: string, status: string, search: string)
    ensures FilterRows(tasks, squad, status, search) == Filter(tasks, (t: TaskItem) => Shown(squad, status, search, t))
    ensures forall t :: t in FilterRows(tasks, squad, status, search) <==> t in tasks && Shown(squad, status, search, t)
  {
    var p1 := (t: TaskItem) => squad == "all" || t.squad == squad;
    var p2 := (t: TaskItem) => status == "all" || t.status == status;
    var p3 := (t: TaskItem) => search == "" || SearchHit(search, t);
    var p12 := (t: TaskItem) => p1(t) && p2(t);
    var all := (t: TaskItem) => Shown(squad, status, search, t);
    OptionalFilter(tasks, squad != "all", (t: TaskItem) => t.squad == squad, p1);
    var bySquad := Filter(tasks, p1);
    OptionalFilter(bySquad, status != "all", (t: TaskItem) => t.status == status, p2);
    FilterTwice(tasks, p1, p2, p12);
    var byStatus := Filter(tasks, p12);
    OptionalFilter(byStatus, search != "", (t: TaskItem) => SearchHit(search, t), p3);
    FilterTwice(tasks, p12, p3, all);
    FilterMembers(tasks, all);
  }

  /** A filter that may be switched off is the filter by "off, or the test holds". */
  lemma OptionalFilter<T>(s: seq<T>, on: bool, p: T -> bool, q: T -> bool)
    requires forall x :: q(x) == (!on || p(x))
    ensures (if on then Filter(s, p) else s) == Filter(s, q)
  {
    if on {
      FilterSame(s, p, q);
    } else {
      FilterAll(s, q);
    }
  }

  /** Two predicates that agree filter alike. */
  lemma {:induction false} FilterSame<T>(s: seq<T>, p: T -> bool, q: T -> bool)
    requires forall x | x in s :: p(x) == q(x)
    ensures Filter(s, p) == Filter(s, q)
    decreases |s|
  {
    if s != [] {
      var u := s[..|s| - 1];
      assert forall x | x in u :: x in s;
      FilterSame(u, p, q);
    }
  }

  // ---------------------------------------------------------------------
  // Sorting

  datatype SortKey = KeyColumn | SummaryColumn | SquadColumn | AssigneeColumn
                   | StatusColumn | PriorityColumn | PointsColumn | TypeColumn

  datatype SortDir = Asc | Desc

  /** `priorityOrder[name]`; `None` for a name the table does not know. */
  function PriorityRank(name: string): Option<int> {
    if name == "High" then Some(0)
    else if name == "Medium" then Some(1)
    else if name == "Low" then Some(2)
    else None
  }

  /** `statusOrder[name]`; `None` for a name the table does not know. */
  function StatusRank(name: string): Option<int> {
    if name == "To Do" then Some(0)
    else if name == "In Progress" then Some(1)
    else if name == "In Review" then Some(2)
    else if name == "Done" then Some(3)
    else None
  }

  /** A difference of ranks; with an unknown rank it is NaN, which the sort reads as 0. */
  function RankDiff(a: Option<int>, b: Option<int>): int {
    if a.Some? && b.Some? then a.value - b.value else 0
  }

  /** `a.localeCompare(b)`, as code-point order. */
  function LocaleCompare(a: string, b: string): (r: int)
    ensures r == 0 <==> a == b
    ensures r < 0 <==> a != b && LexLe(a, b)
  {
    if a == b then 0 else if LexLe(a, b) then -1 else 1
  }

  /** `String(task[key])` for the text columns. */
  function Column(key: SortKey, t: TaskItem): string {
    match key
    case KeyColumn => t.key
    case SummaryColumn => t.summary
    case SquadColumn => t.squad
    case AssigneeColumn => t.assignee
    case StatusColumn => t.status
    case PriorityColumn => t.priority
    case PointsColumn => NatToString(t.storyPoints)
    case TypeColumn => t.kind
  }

  /** The comparator of `sorted`. */
  function Compare(key: SortKey, dir: SortDir, a: TaskItem, b: TaskItem): int {
    var cmp :=
      if key == PriorityColumn then RankDiff(PriorityRank(a.priority), PriorityRank(b.priority))
      else if key == StatusColumn then RankDiff(StatusRank(a.status), StatusRank(b.status))
      else if key == PointsColumn then a.storyPoints - b.storyPoints
      else LocaleCompare(Column(key, a), Column(key, b));
    if dir == Asc then cmp else -cmp
  }

  /** `a` may come before `b`. */
  predicate Before(key: SortKey, dir: SortDir, a: TaskItem, b: TaskItem) {
    Compare(key, dir, a, b) <= 0
  }

  function SortedRows(rows: seq<TaskItem>, key: SortKey, dir: SortDir): seq<TaskItem> {
    Sort(rows, (a: TaskItem, b: TaskItem) => Before(key, dir, a, b))
  }

  /** Swapping the tasks negates the comparison; descending is ascending swapped. */
  lemma CompareFlips(key: SortKey, dir: SortDir, a: TaskItem, b: TaskItem)
    ensures Compare(key, dir, a, b) == -Compare(key, dir, b, a)
    ensures Compare(key, Desc, a, b) == Compare(key, Asc, b, a)
  {
    var x, y := Column(key, a), Column(key, b);
    if x != y && LexLe(x, y) && LexLe(y, x) {
      LexLeAntisymmetric(x, y);
    }
    if x != y && !LexLe(x, y) {
      LexLeTotal(x, y);
    }
  }

  /** The table knows the priority and status names of every row. */
  ghost predicate KnownNames(rows: seq<TaskItem>) {
    forall t | t in rows :: PriorityRank(t.priority).Some? && StatusRank(t.status).Some?
  }

  lemma CompareTransitive(key: SortKey, dir: SortDir, a: TaskItem, b: TaskItem, c: TaskItem)
    requires key == PriorityColumn || key == StatusColumn ==> KnownNames([a, b, c])
    requires Before(key, dir, a, b) && Before(key, dir, b, c)
    ensures Before(key, dir, a, c)
  {
    assert a in [a, b, c] && b in [a, b, c] && c in [a, b, c];
    if key != PriorityColumn && key != StatusColumn && key != PointsColumn {
      var x, y, z := Column(key, a), Column(key, b), Column(key, c);
      if dir == Asc {
        if x != y && y != z {
          LexLeTransitive(x, y, z);
        }
      } else {
        CompareFlips(key, dir, a, b);
        CompareFlips(key, dir, b, c);
        CompareFlips(key, dir, a, c);
        if x != y && y != z {
          LexLeTransitive(z, y, x);
        }
      }
    }
  }

  /**
   * The sorted rows are a permutation of the filtered ones, in comparator
   * order; for the priority and status columns that needs names the table
   * knows (an unknown one compares equal to everything).
   */
  lemma SortedRowsOrdered(rows: seq<TaskItem>, key: SortKey, dir: SortDir)
    requires key == PriorityColumn || key == StatusColumn ==> KnownNames(rows)
    ensures multiset(SortedRows(rows, key, dir)) == multiset(rows)
    ensures SortedBy(SortedRows(rows, key, dir), (a: TaskItem, b: TaskItem) => Before(key, dir, a, b))
  {
    var le := (a: TaskItem, b: TaskItem) => Before(key, dir, a, b);
    forall x, y | x in rows && y in rows ensures le(x, y) || le(y, x) {
      CompareFlips(key, dir, x, y);
    }
    forall x, y, z | x in rows && y in rows && z in rows && le(x, y) && le(y, z) ensures le(x, z) {
      CompareTransitive(key, dir, x, y, z);
    }
    SortSorted(rows, le);
  }

  // ---------------------------------------------------------------------
  // Pages

  /** `Math.ceil(n / 8)`. */
  function TotalPages(n: nat): (p: nat)
    ensures p * RowsPerPage >= n
    ensures p > 0 ==> (p - 1) * RowsPerPage < n
  {
    (n + RowsPerPage - 1) / RowsPerPage
  }

  /** `rows.slice(8 * page, 8 * page + 8)`. */
  function PageRows<T>(rows: seq<T>, page: nat): (r: seq<T>)
    ensures |r| <= RowsPerPage
    ensures page < TotalPages(|rows|) ==> |r| > 0
    ensures page >= TotalPages(|rows|) ==> r == []
  {
    var start := if page * RowsPerPage <= |rows| then page * RowsPerPage else |rows|;
    var end := if start + RowsPerPage <= |rows| then start + RowsPerPage else |rows|;
    rows[start..end]
  }

  /** The first `k` pages, one after the other. */
  function Pages<T>(rows: seq<T>, k: nat): seq<T> {
    if k == 0 then [] else Pages(rows, k - 1) + PageRows(rows, k - 1)
  }

  lemma {:induction false} PagesPrefix<T>(rows: seq<T>, k: nat)
    ensures Pages(rows, k) == rows[..if k * RowsPerPage <= |rows| then k * RowsPerPage else |rows|]
  {
    if k > 0 {
      PagesPrefix(rows, k - 1);
      var a := if (k - 1) * RowsPerPage <= |rows| then (k - 1) * RowsPerPage else |rows|;
      var b := if k * RowsPerPage <= |rows| then k * RowsPerPage else |rows|;
      assert PageRows(rows, k - 1) == rows[a..b];
      assert rows[..a] + rows[a..b] == rows[..b];
    }
  }

  /** The pages, read in order, are the rows: none is lost or shown twice. */
  lemma PagesCover<T>(rows: seq<T>)
    ensures Pages(rows, TotalPages(|rows|)) == rows
  {
    PagesPrefix(rows, TotalPages(|rows|));
    assert rows[..|rows|] == rows;
  }

  /** The Prev button: `Math.max(0, page - 1)`. */
  function PrevPage(page: nat): nat {
    if page == 0 then 0 else page - 1
  }

  /** The Next button: `Math.min(totalPages - 1, page + 1)`. */
  function NextPage(page: nat, totalPages: nat): int {
    if page + 1 <= totalPages - 1 then page + 1 else totalPages - 1
  }

  /** From a page that exists both buttons lead to a page that exists, and they stop at the ends. */
  lemma PagerStaysInRange(page: nat, totalPages: nat)
    requires page < totalPages
    ensures PrevPage(page) < totalPages
    ensures 0 <= NextPage(page, totalPages) < totalPages
    ensures page == 0 ==> PrevPage(page) == 0
    ensures page == totalPages - 1 ==> NextPage(page, totalPages) == page
    ensures page > 0 ==> PrevPage(page) == page - 1
    ensures page < totalPages - 1 ==> NextPage(page, totalPages) == page + 1
  {
  }

  // ---------------------------------------------------------------------
  // Sort state

  /** `toggleSort`: the same column flips the direction, another starts ascending. */
  function Toggled(key: SortKey, dir: SortDir, column: SortKey): (r: (SortKey, SortDir))
    ensures r.0 == column
    ensures column == key ==> r.1 != dir
    ensures column != key ==> r.1 == Asc
  {
    if column == key then (key, if dir == Asc then Desc else Asc) else (column, Asc)
  }

  /** Two clicks on the same column restore the order; on a new column they give descending. */
  lemma ToggleTwice(key: SortKey, dir: SortDir, column: SortKey)
    ensures var once := Toggled(key, dir, column);
      Toggled(once.0, once.1, column) == if column == key then (key, dir) else (column, Desc)
  {
  }

  /** The table's own state: search text, sort, filters and page. */
  class TableState {
    var search: string
    var sortKey: SortKey
    var sortDir: SortDir
    var filterSquad: string
    var filterStatus: string
    var page: nat

    constructor ()
      ensures search == "" && sortKey == KeyColumn && sortDir == Asc
      ensures filterSquad == "all" && filterStatus == "all" && page == 0
    {
      search := "";
      sortKey := KeyColumn;
      sortDir := Asc;
      filterSquad := "all";
      filterStatus := "all";
      page := 0;
    }

    /** The rows the table shows, filtered and sorted. */
    function Rows(tasks: seq<TaskItem>): seq<TaskItem>
      reads this
    {
      SortedRows(FilterRows(tasks, filterSquad, filterStatus, search), sortKey, sortDir)
    }

    /** `pageData`: at most eight rows. */
    function PageData(tasks: seq<TaskItem>): (r: seq<TaskItem>)
      reads this
      ensures |r| <= RowsPerPage
    {
      PageRows(Rows(tasks), page)
    }

    method ToggleSort(column: SortKey)
      modifies this
      ensures (sortKey, sortDir) == Toggled(old(sortKey), old(sortDir), column)
      ensures search == old(search) && filterSquad == old(filterSquad)
      ensures filterStatus == old(filterStatus) && page == old(page)
    {
      if sortKey == column {
        sortDir := if sortDir == Asc then Desc else Asc;
      } else {
        sortKey := column;
        sortDir := Asc;
      }
    }

    /** Typing in the search box goes back to the first page. */
    method SetSearch(text: string)
      modifies this
      ensures search == text && page == 0
      ensures sortKey == old(sortKey) && sortDir == old(sortDir)
      ensures filterSquad == old(filterSquad) && filterStatus == old(filterStatus)
    {
      search := text;
      page := 0;
    }

    /** Choosing a squad goes back to the first page. */
    method SetFilterSquad(squad: string)
      modifies this
      ensures filterSquad == squad && page == 0
      ensures search == old(search) && sortKey == old(sortKey) && sortDir == old(sortDir)
      ensures filterStatus == old(filterStatus)
    {
      filterSquad := squad;
      page := 0;
    }

    /** Choosing a status goes back to the first page. */
    method SetFilterStatus(status: string)
      modifies this
      ensures filterStatus == status && page == 0
      ensures search == old(search) && sortKey == old(sortKey) && sortDir == old(sortDir)
      ensures filterSquad == old(filterSquad)
    {
      filterStatus := status;
      page := 0;
    }

    method Prev()
      modifies this
      ensures page == PrevPage(old(page))
      ensures search == old(search) && sortKey == old(sortKey) && sortDir == old(sortDir)
      ensures filterSquad == old(filterSquad) && filterStatus == old(filterStatus)
    {
      page := if page - 1 > 0 then page - 1 else 0;
    }

    /** The Next button, which is only drawn when there is more than one page. */
    method Next(totalPages: nat)
      requires totalPages > 1
      modifies this
      ensures page == NextPage(old(page), totalPages)
      ensures search == old(search) && sortKey == old(sortKey) && sortDir == old(sortDir)
      ensures filterSquad == old(filterSquad) && filterStatus == old(filterStatus)
    {
      page := if totalPages - 1 < page + 1 then totalPages - 1 else page + 1;
    }
  }

  // ---------------------------------------------------------------------
  // CSV export

  const Headers: seq<string> := ["Key", "Summary", "Squad", "Assignee", "Status", "Priority", "SP", "Type"]

  /** The eight exported values of a task, in header order. */
  function Fields(t: TaskItem): seq<string> {
    [t.key, t.summary, t.squad, t.assignee, t.status, t.priority, NatToString(t.storyPoints), t.kind]
  }

  /** `"${v}"`: the value between double quotes, with nothing escaped. */
  function Quote(v: string): string {
    "\"" + v + "\""
  }

  function CsvRow(values: seq<string>): string {
    Join(Map(values, Quote), ",")
  }

  function TaskLine(t: TaskItem): string {
    CsvRow(Fields(t))
  }

  /** `exportCsv`'s text: the header line, then one line per sorted row. */
  function Csv(rows: seq<TaskItem>): string {
    Join([CsvRow(Headers)] + Map(rows, TaskLine), "\n")
  }

  lemma {:induction false} JoinAvoids(parts: seq<string>, sep: string, c: char)
    requires c !in sep && forall j | 0 <= j < |parts| :: c !in parts[j]
    ensures c !in Join(parts, sep)
    decreases |parts|
  {
    if |parts| > 1 {
      JoinAvoids(parts[1..], sep, c);
    }
  }

  lemma QuotedAvoids(values: seq<string>, c: char)
    requires c != '"' && c != ',' && forall j | 0 <= j < |values| :: c !in values[j]
    ensures c !in CsvRow(values)
  {
    JoinAvoids(Map(values, Quote), ",", c);
  }

  /** No exported value spans two lines. */
  ghost predicate SingleLine(rows: seq<TaskItem>) {
    forall t, j | t in rows && 0 <= j < 8 :: '\n' !in Fields(t)[j]
  }

  /**
   * When no value holds a line break, the text has exactly one line per
   * sorted row after the header, in row order.
   */
  lemma CsvLines(rows: seq<TaskItem>)
    requires SingleLine(rows)
    ensures Split(Csv(rows), '\n') == [CsvRow(Headers)] + Map(rows, TaskLine)
    ensures |Split(Csv(rows), '\n')| == |rows| + 1
  {
    var lines := [CsvRow(Headers)] + Map(rows, TaskLine);
    QuotedAvoids(Headers, '\n');
    forall j | 0 <= j < |lines| ensures '\n' !in lines[j] {
      if j > 0 {
        QuotedAvoids(Fields(rows[j - 1]), '\n');
      }
    }
    SplitJoin(lines, '\n');
  }

  /** When no value holds a comma, a line splits on commas into the quoted values. */
  lemma CsvRowFields(values: seq<string>)
    requires |values| >= 1 && forall j | 0 <= j < |values| :: ',' !in values[j]
    ensures Split(CsvRow(values), ',') == Map(values, Quote)
  {
    forall j | 0 <= j < |values| ensures ',' !in Quote(values[j]) {
    }
    SplitJoin(Map(values, Quote), ',');
  }
}
