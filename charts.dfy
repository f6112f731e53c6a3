/**
 * The data half of `create_visualizations`: what the three charts plot.
 * The line chart and the bar chart come from the forecast series, the pie
 * from the current-conditions payload alone.
 */
module Charts {
  import opened Json
  import opened Text
  import opened Forecast

  /** Temperature and feels-like over the same time axis. */
  datatype LineChart = LineChart(times: seq<string>, temperature: seq<Json>, feelsLike: seq<Json>)

  /** One bar per forecast point, with an `int(height)%` label on top. */
  datatype BarChart = BarChart(times: seq<string>, heights: seq<Json>, labels: seq<string>)

  /** Wedges in the order of the `stats` dictionary. */
  datatype PieChart = PieChart(labels: seq<string>, values: seq<Json>)

  datatype Bundle = Bundle(line: LineChart, bars: BarChart, pie: PieChart)

  /** The keys of `stats`, in insertion order. */
  const PieLabels: seq<string> := ["Temperature", "Feels Like", "Min Temp", "Max Temp"]

  /** The main-block keys the four wedges read, in the same order. */
  const PieKeys: seq<string> := ["temp", "feels_like", "temp_min", "temp_max"]

  /** `f'{int(height)}%'` for one bar. */
  function BarLabel(height: Json): Option<string>
  {
    match IntOf(height)
    case None => None
    case Some(n) => Some(IntToString(n) + "%")
  }

  /** The labels of the loop over the bars, one per bar, in order; the loop
      raises on a height that `int()` does not accept. */
  function BarLabels(heights: seq<Json>): (r: Option<seq<string>>)
    ensures r.Some? <==> forall i :: 0 <= i < |heights| ==> IsNumber(heights[i])
    ensures r.Some? ==> |r.value| == |heights|
    ensures r.Some? ==> forall i :: 0 <= i < |heights| ==>
              r.value[i] == IntToString(IntOf(heights[i]).value) + "%"
  {
    if heights == [] then Some([])
    else
      match (BarLabel(heights[0]), BarLabels(heights[1..]))
      case (Some(l), Some(ls)) => Some([l] + ls)
      case _ => None
  }

  /** `current['main'][key]` is present for every key of `keys`. */
  predicate MainHas(current: Json, keys: seq<string>)
  {
    forall k :: 0 <= k < |keys| ==> Path(current, ["main", keys[k]]).Some?
  }

  /** `stats`: the four wedges from `weather_data['main']`. */
  function Pie(current: Json): (r: Option<PieChart>)
    ensures r.Some? <==> MainHas(current, PieKeys)
    ensures r.Some? ==> r.value.labels == PieLabels && |r.value.values| == |PieKeys|
    ensures r.Some? ==> forall k :: 0 <= k < |PieKeys| ==>
              r.value.values[k] == Path(current, ["main", PieKeys[k]]).value
  {
    forall k | 0 <= k < |PieKeys| {
      PathOfTwoKeys(current, "main", PieKeys[k]);
    }
    match Get(current, "main")
    case None =>
      assert Path(current, ["main", PieKeys[0]]).None?;
      None
    case Some(main) =>
      match (Get(main, "temp"), Get(main, "feels_like"), Get(main, "temp_min"), Get(main, "temp_max"))
      case (Some(t), Some(f), Some(lo), Some(hi)) =>
        Some(PieChart(PieLabels, [t, f, lo, hi]))
      case _ =>
        assert !MainHas(current, PieKeys) by {
          var k := if Get(main, "temp").None? then 0
                   else if Get(main, "feels_like").None? then 1
                   else if Get(main, "temp_min").None? then 2
                   else 3;
          assert Path(current, ["main", PieKeys[k]]).None?;
        }
        None
  }

  /** Wedge `k` of `pie` is `current['main']` at the k-th key of `stats`,
      and the wedges carry the `stats` labels. */
  predicate PieOf(pie: PieChart, current: Json)
  {
    && pie.labels == PieLabels && |pie.values| == |PieKeys|
    && forall k :: 0 <= k < |PieKeys| ==> Path(current, ["main", PieKeys[k]]) == Some(pie.values[k])
  }

  /** Bar `i` carries the label `f'{int(h_i)}%'` of its own height. */
  predicate LabelsOf(labels: seq<string>, heights: seq<Json>)
  {
    |labels| == |heights|
    && forall i :: 0 <= i < |heights| ==>
         IntOf(heights[i]).Some? && labels[i] == IntToString(IntOf(heights[i]).value) + "%"
  }

  /** The three charts of one fetch, from the forecast series and the
      current payload. They build exactly when every humidity is a number
      and the current `main` block has the four keys. Both lines and the
      bars share the series' time axis, the bars are the humidity values
      labelled `int(h)%`, and the wedges are read from `main`. */
  function Compose(current: Json, series: Series): (r: Option<Bundle>)
    requires Aligned(series, |series.times|)
    ensures r.Some? <==>
      (forall i :: 0 <= i < |series.humidity| ==> IsNumber(series.humidity[i]))
      && MainHas(current, PieKeys)
    ensures r.Some? ==>
      && r.value.line.times == series.times && r.value.bars.times == series.times
      && r.value.line.temperature == series.temps && r.value.line.feelsLike == series.feelsLike
      && r.value.bars.heights == series.humidity
      && LabelsOf(r.value.bars.labels, series.humidity)
      && PieOf(r.value.pie, current)
  {
    match (BarLabels(series.humidity), Pie(current))
    case (Some(labels), Some(pie)) =>
      Some(Bundle(LineChart(series.times, series.temps, series.feelsLike),
                  BarChart(series.times, series.humidity, labels),
                  pie))
    case _ => None
  }

  /** The charts of a forecast payload and a current payload, as
      `create_visualizations` computes them: they build exactly when the
      forecast series builds, every humidity in it is a number, and the
      current `main` block has the four pie keys. */
  function Visualize(current: Json, forecast: Json): (r: Option<Bundle>)
    ensures r.Some? <==>
      && BuildSeries(forecast).Some?
      && (forall i :: 0 <= i < |BuildSeries(forecast).value.humidity| ==>
            IsNumber(BuildSeries(forecast).value.humidity[i]))
      && MainHas(current, PieKeys)
    ensures r.Some? ==> PieOf(r.value.pie, current)
  {
    match BuildSeries(forecast)
    case None => None
    case Some(series) => Compose(current, series)
  }

  /** Every chart plots one point per series entry over the same time axis:
      the temperature line, the feels-like line and the bars all line up
      with the time labels, and there are at most eight of them. */
  lemma ChartsAligned(current: Json, forecast: Json)
    requires Visualize(current, forecast).Some?
    ensures var c := Visualize(current, forecast).value;
      && |c.line.times| <= Horizon
      && |c.line.temperature| == |c.line.times| && |c.line.feelsLike| == |c.line.times|
      && c.bars.times == c.line.times
      && |c.bars.heights| == |c.bars.times| && |c.bars.labels| == |c.bars.times|
  {
  }

  /** The pie always has exactly four wedges, labelled in a fixed order, and
      depends on the current payload only: two forecasts that both chart
      give the same pie, and wedge k is the k-th key of the current
      payload's `main` block. */
  lemma PieFromCurrentOnly(current: Json, forecast1: Json, forecast2: Json)
    requires Visualize(current, forecast1).Some? && Visualize(current, forecast2).Some?
    ensures Visualize(current, forecast1).value.pie == Visualize(current, forecast2).value.pie
    ensures MainHas(current, PieKeys)
    ensures var p := Visualize(current, forecast1).value.pie;
      |p.values| == 4 && p.labels == PieLabels
      && forall k :: 0 <= k < 4 ==> p.values[k] == Path(current, ["main", PieKeys[k]]).value
  {
    var s := BuildSeries(forecast1).value;
    assert Visualize(current, forecast1) == Compose(current, s);
  }

  /** A bar label reads back as the bar's height truncated toward zero,
      followed by a percent sign. */
  lemma BarLabelReadsBack(height: Json)
    requires IsNumber(height)
    ensures var l := BarLabel(height).value;
      l != [] && l[|l| - 1] == '%' && l[..|l| - 1] == IntToString(IntOf(height).value)
      && ParseInt(l[..|l| - 1]) == IntOf(height).value
  {
    var n := IntOf(height).value;
    var l := BarLabel(height).value;
    assert l[..|l| - 1] == IntToString(n);
    IntToStringRoundTrip(n);
  }
}
