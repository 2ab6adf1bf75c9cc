/** The charting library reduced to what the dashboard relies on: a chart
    object has an identity and the dataset it was built with, and the canvas
    keeps track of which chart objects are still live (created and not yet
    destroyed). Colours, tension, scales and the other drawing options are
    not modelled. */
module Charts {

  import opened Wrappers

  type ChartId = nat

  /** One line of the chart: its legend and one point per x label. */
  datatype Series = Series(legend: string, points: seq<int>)

  /** The `data` part of a line chart's configuration. */
  datatype ChartData = ChartData(labels: seq<string>, series: seq<Series>)

  /** A chart object: `new Chart(ctx, config)` yields a new identity. */
  datatype Chart = Chart(id: ChartId, data: ChartData)

  /** Every series has exactly one point per x label. */
  predicate WellShaped(d: ChartData)
  {
    forall i :: 0 <= i < |d.series| ==> |d.series[i].points| == |d.labels|
  }

  /** The fixed dataset of the performance chart: six weekly labels, the
      investment series and the conversions series. */
  function PerformanceData(): (d: ChartData)
    ensures |d.labels| == 6 && |d.series| == 2
    ensures WellShaped(d)
    ensures d.series[0].legend == "Investimento (R$)" && d.series[1].legend == "Conversões"
  {
    ChartData(
      ["Semana 1", "Semana 2", "Semana 3", "Semana 4", "Semana 5", "Semana 6"],
      [ Series("Investimento (R$)", [2200, 3100, 2800, 4200, 3500, 4500]),
        Series("Conversões", [40, 62, 55, 90, 75, 110]) ])
  }

  /** `chart.destroy()`: afterwards `c` is not live and nothing else changed
      state; on a chart that is already destroyed it is a no-op. */
  function Destroy(live: set<ChartId>, c: Chart): (r: set<ChartId>)
    ensures c.id !in r
    ensures forall id :: id in live && id != c.id ==> id in r
    ensures r <= live
  {
    live - {c.id}
  }

  lemma DestroyTwiceIsDestroyOnce(live: set<ChartId>, c: Chart)
    ensures Destroy(Destroy(live, c), c) == Destroy(live, c)
  {
  }

  /** The ids a chart reference can keep alive: none, or the referenced one. */
  function Referenced(ref: Option<Chart>): set<ChartId>
  {
    if ref.Some? then {ref.value.id} else {}
  }
}
