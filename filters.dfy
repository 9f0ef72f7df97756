/**
 * The advanced-filter panel: six lists of selected values, one per
 * category, that a click toggles and a button clears.
 */
module Filters {
  import opened Lists

  datatype Category = Assignee | Priority | Status | IssueType | Squad | Sprint

  /** `FilterValues`: the values selected in each category. */
  datatype FilterValues = FilterValues(
    assignee: seq<string>,
    priority: seq<string>,
    status: seq<string>,
    issueType: seq<string>,
    squad: seq<string>,
    sprint: seq<string>)
  {
    /** `filters[category]`. */
    function Get(c: Category): seq<string> {
      match c
      case Assignee => assignee
      case Priority => priority
      case Status => status
      case IssueType => issueType
      case Squad => squad
      case Sprint => sprint
    }

    /** `{ ...filters, [category]: values }`. */
    function With(c: Category, values: seq<string>): (f: FilterValues)
      ensures f.Get(c) == values
      ensures forall d | d != c :: f.Get(d) == Get(d)
    {
      match c
      case Assignee => this.(assignee := values)
      case Priority => this.(priority := values)
      case Status => this.(status := values)
      case IssueType => this.(issueType := values)
      case Squad => this.(squad := values)
      case Sprint => this.(sprint := values)
    }
  }

  /** The selected values other than `value`, in their order. */
  function Without(values: seq<string>, value: string): (r: seq<string>) {
    Filter(values, v => v != value)
  }

  /** `toggleFilter`: drop every copy of a selected value, or append an unselected one. */
  function ToggleFilter(filters: FilterValues, c: Category, value: string): (f: FilterValues)
    ensures value in filters.Get(c) ==>
      (value !in f.Get(c) && forall v :: v in f.Get(c) <==> v in filters.Get(c) && v != value)
    ensures value in filters.Get(c) ==> f.Get(c) == Filter(filters.Get(c), v => v != value)
    ensures value !in filters.Get(c) ==> f.Get(c) == filters.Get(c) + [value]
    ensures forall d | d != c :: f.Get(d) == filters.Get(d)
  {
    var current := filters.Get(c);
    FilterMembers(current, v => v != value);
    var updated := if value in current then Without(current, value) else current + [value];
    filters.With(c, updated)
  }

  /** Toggling an unselected value on and off again restores the selection. */
  lemma ToggleTwice(filters: FilterValues, c: Category, value: string)
    requires value !in filters.Get(c)
    ensures ToggleFilter(ToggleFilter(filters, c, value), c, value) == filters
  {
    var current := filters.Get(c);
    var once := ToggleFilter(filters, c, value);
    FilterConcat(current, [value], v => v != value);
    FilterAll(current, v => v != value);
    FilterOne(value, v => v != value);
    var twice := ToggleFilter(once, c, value);
    assert twice.Get(c) == current;
    assert forall d :: twice.Get(d) == filters.Get(d);
  }

  /** `clearFilters`. */
  const NoFilters := FilterValues([], [], [], [], [], [])

  /** `activeFilterCount`: the number of selected values over all categories. */
  function ActiveFilterCount(filters: FilterValues): nat {
    |filters.assignee| + |filters.priority| + |filters.status| +
    |filters.issueType| + |filters.squad| + |filters.sprint|
  }

  /** Nothing is selected after clearing, and only then is the count zero. */
  lemma ClearedIsEmpty(filters: FilterValues)
    ensures forall c :: NoFilters.Get(c) == []
    ensures ActiveFilterCount(filters) == 0 <==> filters == NoFilters
  {
  }

  /**
   * Toggling a value on adds one to the count; toggling it off takes away
   * as many as it was selected.
   */
  lemma ToggleCount(filters: FilterValues, c: Category, value: string)
    ensures value !in filters.Get(c) ==>
      ActiveFilterCount(ToggleFilter(filters, c, value)) == ActiveFilterCount(filters) + 1
    ensures value in filters.Get(c) ==>
      ActiveFilterCount(ToggleFilter(filters, c, value)) ==
      ActiveFilterCount(filters) - multiset(filters.Get(c))[value]
  {
    var f := ToggleFilter(filters, c, value);
    var current := filters.Get(c);
    assert ActiveFilterCount(f) == ActiveFilterCount(filters) - |current| + |f.Get(c)| by {
      match c
      case Assignee =>
      case Priority =>
      case Status =>
      case IssueType =>
      case Squad =>
      case Sprint =>
    }
    if value in current {
      WithoutCount(current, value);
    }
  }

  lemma {:induction false} WithoutCount(values: seq<string>, value: string)
    ensures |Without(values, value)| == |values| - multiset(values)[value]
    decreases |values|
  {
    if values != [] {
      var u := values[..|values| - 1];
      WithoutCount(u, value);
      assert values == u + [values[|values| - 1]];
    }
  }
}
