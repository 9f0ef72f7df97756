/**
 * The velocity comparison chart: one point per sprint label of the first
 * squad, each carrying every squad's velocity in that sprint.
 */
module VelocityChart {
  import opened Wrappers
  import opened Lists
  import opened DashboardTypes

  /** A value of a chart point: the sprint label or a squad's points. */
  datatype Cell = Label(text: string) | Points(value: int)

  /** One chart point, `Record<string, string | number>`: one object for label and squads alike. */
  type ChartPoint = map<string, Cell>

  /** `squads[0]?.velocityHistory.map(v => v.sprint) ?? []`. */
  function Labels(squads: seq<SquadView>): (r: seq<string>)
    ensures squads == [] ==> r == []
    ensures squads != [] ==> |r| == |squads[0].velocityHistory|
    ensures squads != [] ==> forall i | 0 <= i < |r| :: r[i] == squads[0].velocityHistory[i].sprint
  {
    if squads == [] then [] else Map(squads[0].velocityHistory, (v: VelocityPoint) => v.sprint)
  }

  /** `history.find(v => v.sprint === sprint)`: the index of the first match. */
  function FindSprint(history: seq<VelocityPoint>, sprint: string): (r: Option<nat>)
    ensures r.Some? ==> r.value < |history| && history[r.value].sprint == sprint
    ensures r.Some? ==> forall k | 0 <= k < r.value :: history[k].sprint != sprint
    ensures r.None? <==> forall k | 0 <= k < |history| :: history[k].sprint != sprint
    decreases |history|
  {
    if history == [] then None
    else if history[0].sprint == sprint then Some(0)
    else
      match FindSprint(history[1..], sprint)
      case None => None
      case Some(i) => Some(i + 1)
  }

  /** `match?.points ?? 0`: the first entry for `sprint`, or 0 when there is none. */
  function PointsIn(history: seq<VelocityPoint>, sprint: string): (r: int)
    ensures forall i | 0 <= i < |history| && history[i].sprint == sprint &&
      (forall k | 0 <= k < i :: history[k].sprint != sprint) :: r == history[i].points
    ensures (forall k | 0 <= k < |history| :: history[k].sprint != sprint) ==> r == 0
  {
    match FindSprint(history, sprint)
    case None => 0
    case Some(i) => history[i].points
  }

  /**
   * `{ sprint }`, then the `forEach` over the squads in order: each squad
   * writes its name, so a later squad overwrites an earlier one of the same
   * name, and a squad named "sprint" overwrites the label.
   */
  function Point(squads: seq<SquadView>, sprint: string): (r: ChartPoint)
    ensures "sprint" in r
    decreases |squads|
  {
    if squads == [] then map["sprint" := Label(sprint)]
    else
      var last := squads[|squads| - 1];
      Point(squads[..|squads| - 1], sprint)[last.name := Points(PointsIn(last.velocityHistory, sprint))]
  }

  /** `chartData`. */
  function ChartData(squads: seq<SquadView>): seq<ChartPoint> {
    Map(Labels(squads), (sprint: string) => Point(squads, sprint))
  }

  /** A point's keys are "sprint" and the squad names. */
  lemma {:induction false} PointKeys(squads: seq<SquadView>, sprint: string)
    ensures Point(squads, sprint).Keys == {"sprint"} + set s | s in squads :: s.name
    decreases |squads|
  {
    if squads != [] {
      var init := squads[..|squads| - 1];
      PointKeys(init, sprint);
      assert squads == init + [squads[|squads| - 1]];
    }
  }

  /** A name's value comes from the last squad of that name. */
  lemma {:induction false} PointLastWins(squads: seq<SquadView>, sprint: string, j: nat)
    requires j < |squads|
    requires forall k | j < k < |squads| :: squads[k].name != squads[j].name
    ensures squads[j].name in Point(squads, sprint)
    ensures Point(squads, sprint)[squads[j].name] == Points(PointsIn(squads[j].velocityHistory, sprint))
    decreases |squads|
  {
    if j < |squads| - 1 {
      PointLastWins(squads[..|squads| - 1], sprint, j);
    }
  }

  /** The label survives exactly when no squad is named "sprint". */
  lemma {:induction false} PointLabel(squads: seq<SquadView>, sprint: string)
    ensures Point(squads, sprint)["sprint"] == Label(sprint) <==> forall s | s in squads :: s.name != "sprint"
    decreases |squads|
  {
    PointKeys(squads, sprint);
    if squads != [] {
      var init := squads[..|squads| - 1];
      PointLabel(init, sprint);
      assert squads == init + [squads[|squads| - 1]];
    }
  }

  /**
   * One point per label, in label order; each point's keys are "sprint" and
   * the squad names, and it carries its label unless a squad is named "sprint".
   */
  lemma ChartDataShape(squads: seq<SquadView>)
    ensures |ChartData(squads)| == |Labels(squads)|
    ensures forall i | 0 <= i < |ChartData(squads)| ::
      ChartData(squads)[i].Keys == {"sprint"} + set s | s in squads :: s.name
    ensures forall i | 0 <= i < |ChartData(squads)| ::
      (ChartData(squads)[i]["sprint"] == Label(Labels(squads)[i]) <==> forall s | s in squads :: s.name != "sprint")
  {
    forall i | 0 <= i < |ChartData(squads)|
      ensures ChartData(squads)[i].Keys == {"sprint"} + set s | s in squads :: s.name
      ensures ChartData(squads)[i]["sprint"] == Label(Labels(squads)[i]) <==> forall s | s in squads :: s.name != "sprint"
    {
      PointKeys(squads, Labels(squads)[i]);
      PointLabel(squads, Labels(squads)[i]);
    }
  }
}
