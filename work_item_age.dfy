/**
 * The work item age chart: the in-progress items, oldest first, each drawn
 * in a colour chosen by its age.
 */
module WorkItemAge {
  import opened Lists
  import opened Sorting

  /** An in-progress item and its age in days. */
  datatype AgeItem = AgeItem(
    key: string,
    summary: string,
    age: int,
    storyPoints: nat,
    status: string,
    assignee: string)

  /** The comparator `b.age - a.age` puts `a` no later than `b`. */
  predicate NoYounger(a: AgeItem, b: AgeItem) {
    b.age - a.age <= 0
  }

  /** `[...data].sort(...)`: a sorted copy, `data` itself being a value. */
  function SortedData(data: seq<AgeItem>): seq<AgeItem> {
    Sort(data, NoYounger)
  }

  /** The copy holds the same items, oldest first. */
  lemma SortedDataOrdered(data: seq<AgeItem>)
    ensures multiset(SortedData(data)) == multiset(data)
    ensures forall i, j | 0 <= i < j < |SortedData(data)| :: SortedData(data)[i].age >= SortedData(data)[j].age
  {
    SortSorted(data, NoYounger);
  }

  datatype Colour = Red | Yellow | Green

  /** The cell colour: red past ten days, yellow past five, green otherwise. */
  function ColourOf(age: int): (c: Colour)
    ensures c == Red <==> age > 10
    ensures c == Yellow <==> 5 < age <= 10
    ensures c == Green <==> age <= 5
  {
    if age > 10 then Red else if age > 5 then Yellow else Green
  }

  /** Red before yellow before green. */
  function Rank(c: Colour): nat {
    match c
    case Red => 0
    case Yellow => 1
    case Green => 2
  }

  /** An older item never gets a fresher colour. */
  lemma ColourMonotone(a: int, b: int)
    requires a >= b
    ensures Rank(ColourOf(a)) <= Rank(ColourOf(b))
  {
  }

  /** One cell per sorted item. */
  function Cells(data: seq<AgeItem>): seq<Colour> {
    Map(SortedData(data), (e: AgeItem) => ColourOf(e.age))
  }

  /** One cell per item, in sorted order: reds, then yellows, then greens. */
  lemma CellsOrdered(data: seq<AgeItem>)
    ensures |Cells(data)| == |data|
    ensures forall i | 0 <= i < |data| :: Cells(data)[i] == ColourOf(SortedData(data)[i].age)
    ensures forall i, j | 0 <= i < j < |data| :: Rank(Cells(data)[i]) <= Rank(Cells(data)[j])
  {
    SortedDataOrdered(data);
    var s := SortedData(data);
    forall i, j | 0 <= i < j < |data| ensures Rank(Cells(data)[i]) <= Rank(Cells(data)[j]) {
      ColourMonotone(s[i].age, s[j].age);
    }
  }
}
