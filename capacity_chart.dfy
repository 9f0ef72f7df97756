/** The capacity chart: one bar pair per squad, under a shortened name. */
module CapacityChart {
  import opened Lists
  import opened DashboardTypes

  /** The ellipsis appended to a shortened name. */
  const Ellipsis: char := '\U{2026}'

  /** A name of more than ten characters becomes its first ten and an ellipsis. */
  function Truncate(name: string): (r: string)
    ensures |name| <= 10 ==> r == name
    ensures |name| > 10 ==> |r| == 11 && r[..10] == name[..10] && r[10] == Ellipsis
  {
    if |name| > 10 then name[..10] + [Ellipsis] else name
  }

  /** Shortening is idempotent and never yields more than eleven characters. */
  lemma TruncateTwice(name: string)
    ensures Truncate(Truncate(name)) == Truncate(name)
    ensures |Truncate(name)| <= 11
  {
    if |name| > 10 {
      var r := Truncate(name);
      assert r[..10] == name[..10];
    }
  }

  datatype CapacityRow = CapacityRow(name: string, committed: nat, capacity: int)

  function RowOf(s: SquadView): CapacityRow {
    CapacityRow(Truncate(s.name), s.total, s.capacity)
  }

  function Rows(squads: seq<SquadView>): seq<CapacityRow> {
    Map(squads, RowOf)
  }

  /** One row per squad, in order: the committed points are the squad's total, the capacity is copied. */
  lemma RowsShape(squads: seq<SquadView>)
    ensures |Rows(squads)| == |squads|
    ensures forall i | 0 <= i < |squads| ::
      Rows(squads)[i].name == Truncate(squads[i].name) &&
      Rows(squads)[i].committed == squads[i].total &&
      Rows(squads)[i].capacity == squads[i].capacity
  {
  }
}
