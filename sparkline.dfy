/** The inline up/down chart drawn in the 24h-change column: fixed data, drawn
    forwards or backwards, in green or red. */
module Sparkline {

  const DataUp: seq<int> := [2400, 1398, 9800, 3908, 4800, 3800, 4300]
  const DataDown: seq<int> := [4300, 3800, 4800, 3908, 9800, 1398, 2400]
  const XLabels: seq<string> := ["A", "B", "C", "D", "E", "F", "G"]

  /** What the chart container is given: one line series, its point axis, its stroke. */
  datatype Chart = Chart(data: seq<int>, labels: seq<string>, stroke: string)

  function Reversed<T>(s: seq<T>): (r: seq<T>)
    ensures |r| == |s|
    ensures forall k :: 0 <= k < |s| ==> r[k] == s[|s| - 1 - k]
  {
    if |s| == 0 then [] else Reversed(s[1..]) + [s[0]]
  }

  /** The descending series is the ascending one drawn from its end. */
  lemma DownReversesUp()
    ensures DataDown == Reversed(DataUp)
    ensures DataUp == Reversed(DataDown)
  {
  }

  /** The series drawn: the rising one exactly when the coin is going up, otherwise the
      same values reversed; either way one value per axis label. */
  function SeriesData(goingUp: bool): (r: seq<int>)
    ensures |r| == |XLabels|
    ensures r == DataUp <==> goingUp
    ensures r == Reversed(DataUp) <==> !goingUp
  {
    DownReversesUp();
    if goingUp then DataUp else DataDown
  }

  /** The line colour: `green` exactly when going up, `red` exactly when not. */
  function Stroke(goingUp: bool): (r: string)
    ensures r == "green" <==> goingUp
    ensures r == "red" <==> !goingUp
  {
    if goingUp then "green" else "red"
  }

  /** The chart for one direction: the selected series on the seven fixed labels. */
  function Render(goingUp: bool): (c: Chart)
    ensures c.labels == XLabels && |c.data| == |c.labels|
    ensures c.data == SeriesData(goingUp) && c.stroke == Stroke(goingUp)
  {
    Chart(SeriesData(goingUp), XLabels, Stroke(goingUp))
  }

  /** The two directions give different charts: the direction can be read off the chart. */
  lemma RenderInjective(a: bool, b: bool)
    ensures Render(a) == Render(b) <==> a == b
  {
  }
}
