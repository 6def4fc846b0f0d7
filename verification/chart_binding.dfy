/**
 What the Chart.js line chart draws. The chart is built once over the three
 arrays held in `chartData` and keeps those array objects. `resetUI` assigns
 fresh empty arrays to `chartData`, which detaches the chart: later pushes go
 to arrays the chart no longer draws. The corrected reset empties the bound
 arrays in place, so the chart keeps drawing the data.
 */
module ChartBinding {
  import opened Wrappers
  import opened ChartBuffer

  /**
   `data` is what `chartData` holds, `shown` what the chart draws; `bound` says
   whether they are still the same array objects.
   */
  datatype Plot = Plot(data: Chart, shown: Chart, bound: bool)

  /** `initChart`: the chart is built over the (empty) `chartData` arrays. */
  function InitPlot(): (r: Plot)
    ensures r.bound && r.shown == r.data && Valid(r.data) && Samples(r.data) == []
  {
    Plot(Chart([], [], []), Chart([], [], []), true)
  }

  /** `addChartDataPoint`: the push reaches the drawn arrays only while bound. */
  function PlotPush(p: Plot, x: Sample): (r: Plot)
    ensures r.data == PushSample(p.data, x)
    ensures r.bound == p.bound
    ensures p.bound ==> r.shown == r.data
    ensures !p.bound ==> r.shown == p.shown
  {
    var d := PushSample(p.data, x);
    Plot(d, if p.bound then d else p.shown, p.bound)
  }

  /** `resetUI` as written: `chartData.labels = []` and so on rebind the series. */
  function ResetAsWritten(p: Plot): (r: Plot)
    ensures r.data == Chart([], [], []) && r.shown == p.shown && !r.bound
  {
    Plot(Reset(p.data), p.shown, false)
  }

  /**
   The corrected reset: the `chartData` arrays are emptied in place
   (`length = 0`), which reaches the drawn arrays only while they are the same.
   */
  function ResetInPlace(p: Plot): (r: Plot)
    ensures r.data == Chart([], [], []) && r.bound == p.bound
    ensures p.bound ==> r.shown == Chart([], [], [])
    ensures !p.bound ==> r.shown == p.shown
  {
    Plot(Reset(p.data), if p.bound then Reset(p.shown) else p.shown, p.bound)
  }

  /** Pushes applied in order. */
  function PushAll(p: Plot, xs: seq<Sample>): Plot
    decreases |xs|
  {
    if |xs| == 0 then p else PlotPush(PushAll(p, xs[..|xs| - 1]), xs[|xs| - 1])
  }

  /** Once detached, no number of pushes changes what the chart draws. */
  lemma {:induction false} DetachedChartIsFrozen(p: Plot, xs: seq<Sample>)
    requires !p.bound
    ensures PushAll(p, xs).shown == p.shown && !PushAll(p, xs).bound
    decreases |xs|
  {
    if |xs| > 0 {
      DetachedChartIsFrozen(p, xs[..|xs| - 1]);
    }
  }

  /**
   As written: after the reset that every start click performs, a run of samples
   is pushed but the chart still draws nothing.
   */
  lemma ResetAsWrittenHidesSamples(xs: seq<Sample>)
    requires |xs| > 0
    ensures PushAll(ResetAsWritten(InitPlot()), xs).shown == Chart([], [], [])
    ensures PushAll(ResetAsWritten(InitPlot()), xs).data.labels != []
  {
  }

  /** A step of the dashboard's chart handling: a reset or a push. */
  datatype PlotOp = ResetOp | PushOp(sample: Sample)

  /** The corrected chart handling: reset in place, push as written. */
  function RunFixed(p: Plot, ops: seq<PlotOp>): Plot
    decreases |ops|
  {
    if |ops| == 0 then p
    else
      var q := RunFixed(p, ops[..|ops| - 1]);
      match ops[|ops| - 1]
      case ResetOp => ResetInPlace(q)
      case PushOp(x) => PlotPush(q, x)
  }

  /** With the in-place reset the chart always draws exactly the buffered data. */
  lemma {:induction false} FixedChartShowsData(ops: seq<PlotOp>)
    ensures RunFixed(InitPlot(), ops).bound
    ensures RunFixed(InitPlot(), ops).shown == RunFixed(InitPlot(), ops).data
    decreases |ops|
  {
    if |ops| > 0 {
      FixedChartShowsData(ops[..|ops| - 1]);
    }
  }
}
