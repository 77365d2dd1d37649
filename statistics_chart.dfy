/** The generic chart of the statistics page
    (frontend/src/features/statistics/components/StatisticsChart/StatisticsChart.jsx)
    as a function from its props to the chart description handed to the
    charting library. Drawing, layout and `toFixed` rounding are left to the
    renderer: a formatted number is kept as its exact value and the number
    of decimals asked for. */
module StatisticsChart {
  import opened Wrappers

  /** `CHART_COLORS.primary` (frontend/src/features/statistics/types/statistics.types.js). */
  const Primary := "#2196f3"

  /** One entry of `dataKeys`; an absent colour or name is `None`. */
  datatype DataKey = DataKey(key: string, color: Option<string>, name: Option<string>)

  /** JavaScript's `x || fallback` on an optional string: absent and empty
      strings are both falsy. */
  function OrElse(x: Option<string>, fallback: string): string {
    if x.Some? && x.value != "" then x.value else fallback
  }

  // =====================================================================
  // Tooltip

  /** A formatted quantity: the number, the decimals it is printed with,
      and the unit after it. */
  datatype Quantity = Quantity(amount: real, decimals: nat, unit: string)

  /** The value formatting of `CustomTooltip`. */
  function FormatQuantity(value: real): Quantity {
    if value >= 1000.0 then Quantity(value / 1000.0, 1, "kg")
    else if value >= 10.0 then Quantity(value, 1, "un")
    else Quantity(value, 2, "un")
  }

  /** The tooltip content: the label and the first entry's formatted value
      and colour. */
  datatype TooltipContent = TooltipContent(caption: string, quantity: Quantity, color: Option<string>)

  datatype PayloadEntry = PayloadEntry(value: real, color: Option<string>)

  /** `CustomTooltip`: nothing unless the tooltip is active and has a
      non-empty payload (`None` is a missing payload), then the first
      entry. */
  function CustomTooltip(active: bool, payload: Option<seq<PayloadEntry>>, caption: string): Option<TooltipContent> {
    if active && payload.Some? && |payload.value| > 0 then
      Some(TooltipContent(caption, FormatQuantity(payload.value[0].value), payload.value[0].color))
    else None
  }

  // =====================================================================
  // Chart

  datatype ChartKind = LineKind | BarKind | AreaKind

  /** One series of a line, bar or area chart. */
  datatype Series = Series(dataKey: string, color: string, name: string)

  datatype ChartBody =
    | Cartesian(kind: ChartKind, xAxisKey: string, series: seq<Series>, customTooltip: bool)
    | Pie(valueKey: string, cellColors: seq<string>)
    | Unsupported(message: string)

  datatype ChartView =
    | ChartLoading(heading: string)
    | ChartEmpty(heading: string)
    | Chart(titleHeading: Option<string>, body: ChartBody)

  function SeriesOf(item: DataKey): Series {
    Series(item.key, OrElse(item.color, Primary), OrElse(item.name, item.key))
  }

  function AllSeries(dataKeys: seq<DataKey>): seq<Series> {
    seq(|dataKeys|, i requires 0 <= i < |dataKeys| => SeriesOf(dataKeys[i]))
  }

  /** `dataKeys[0]?.key || 'value'`. */
  function PieValueKey(dataKeys: seq<DataKey>): string {
    if |dataKeys| > 0 && dataKeys[0].key != "" then dataKeys[0].key else "value"
  }

  /** `dataKeys[index]?.color || CHART_COLORS.primary`, for every point. */
  function PieCellColors(pointCount: nat, dataKeys: seq<DataKey>): seq<string> {
    seq(pointCount, i requires 0 <= i < pointCount =>
      if i < |dataKeys| then OrElse(dataKeys[i].color, Primary) else Primary)
  }

  /** `renderChart`: the switch on `type`. */
  function RenderBody<P>(data: seq<P>, chartType: string, dataKeys: seq<DataKey>, xAxisKey: string): ChartBody {
    if chartType == "line" then Cartesian(LineKind, xAxisKey, AllSeries(dataKeys), false)
    else if chartType == "bar" then Cartesian(BarKind, xAxisKey, AllSeries(dataKeys), true)
    else if chartType == "area" then Cartesian(AreaKind, xAxisKey, AllSeries(dataKeys), false)
    else if chartType == "pie" then Pie(PieValueKey(dataKeys), PieCellColors(|data|, dataKeys))
    else Unsupported("Tipo de gráfico não suportado")
  }

  /** The props' defaults: a line chart over the `date` field. */
  const DefaultChartType := "line"
  const DefaultXAxisKey := "date"

  /** The component. `data` is `None` when it is `null`; `title`, `type`
      and `xAxisKey` are `None` when they are not given, and the last two
      then take their defaults. */
  function Render<P>(data: Option<seq<P>>, chartType: Option<string>, title: Option<string>, dataKeys: seq<DataKey>,
                     loading: bool, xAxisKey: Option<string>): ChartView
  {
    var heading := if title.Some? then title.value else "";
    if loading then ChartLoading(heading)
    else if data.None? || |data.value| == 0 then ChartEmpty(heading)
    else Chart(if heading != "" then Some(heading) else None,
               RenderBody(data.value, chartType.GetOr(DefaultChartType), dataKeys, xAxisKey.GetOr(DefaultXAxisKey)))
  }

  // ---------------------------------------------------------------------
  // Properties

  /** Loading wins over empty, and empty (no data or none at all) wins over
      the chart; the chart's heading is there exactly when the title is a
      non-empty string. */
  lemma RenderStates<P>(data: Option<seq<P>>, chartType: Option<string>, title: Option<string>, dataKeys: seq<DataKey>,
                        loading: bool, xAxisKey: Option<string>)
    ensures loading ==> Render(data, chartType, title, dataKeys, loading, xAxisKey).ChartLoading?
    ensures !loading ==> (Render(data, chartType, title, dataKeys, loading, xAxisKey).ChartEmpty? <==>
                          data.None? || |data.value| == 0)
    ensures Render(data, chartType, title, dataKeys, loading, xAxisKey).Chart? ==>
              (Render(data, chartType, title, dataKeys, loading, xAxisKey).titleHeading.Some? <==>
               title.Some? && title.value != "")
  {
  }

  /** Without `type` and `xAxisKey`, data is drawn as a line chart over
      `date`, one series per data key and without the custom tooltip; a
      given `type` or `xAxisKey` is used as it is. */
  lemma DefaultChart<P>(data: seq<P>, title: Option<string>, dataKeys: seq<DataKey>, chartType: string, xAxisKey: string)
    requires |data| > 0
    ensures Render(Some(data), None, title, dataKeys, false, None).body
            == Cartesian(LineKind, "date", AllSeries(dataKeys), false)
    ensures Render(Some(data), Some(chartType), title, dataKeys, false, Some(xAxisKey)).body
            == RenderBody(data, chartType, dataKeys, xAxisKey)
  {
  }

  /** Line, bar and area charts have one series per data key, in order,
      with the key's own colour and name when given and non-empty, else the
      primary colour and the key. */
  lemma SeriesPerDataKey<P>(data: seq<P>, chartType: string, dataKeys: seq<DataKey>, xAxisKey: string)
    requires chartType in {"line", "bar", "area"}
    ensures RenderBody(data, chartType, dataKeys, xAxisKey).Cartesian?
    ensures var series := RenderBody(data, chartType, dataKeys, xAxisKey).series;
            && |series| == |dataKeys|
            && forall i :: 0 <= i < |dataKeys| ==>
                 && series[i].dataKey == dataKeys[i].key
                 && (dataKeys[i].color.None? || dataKeys[i].color == Some("") ==> series[i].color == Primary)
                 && (dataKeys[i].color.Some? && dataKeys[i].color.value != "" ==> series[i].color == dataKeys[i].color.value)
                 && (dataKeys[i].name.Some? && dataKeys[i].name.value != "" ==> series[i].name == dataKeys[i].name.value)
                 && (dataKeys[i].name.None? || dataKeys[i].name == Some("") ==> series[i].name == dataKeys[i].key)
    ensures RenderBody(data, chartType, dataKeys, xAxisKey).customTooltip <==> chartType == "bar"
  {
  }

  /** The pie has one cell per point; the colours come from the data keys
      by position and, past the last key, are all the primary colour — they
      do not cycle through a palette. */
  lemma PieCells<P>(data: seq<P>, dataKeys: seq<DataKey>, xAxisKey: string)
    ensures RenderBody(data, "pie", dataKeys, xAxisKey) == Pie(PieValueKey(dataKeys), PieCellColors(|data|, dataKeys))
    ensures |PieCellColors(|data|, dataKeys)| == |data|
    ensures forall i :: |dataKeys| <= i < |data| ==> PieCellColors(|data|, dataKeys)[i] == Primary
    ensures forall i :: 0 <= i < |data| && i < |dataKeys| && dataKeys[i].color.Some? && dataKeys[i].color.value != "" ==>
              PieCellColors(|data|, dataKeys)[i] == dataKeys[i].color.value
    ensures |dataKeys| == 0 ==> PieValueKey(dataKeys) == "value"
    ensures |dataKeys| > 0 && dataKeys[0].key != "" ==> PieValueKey(dataKeys) == dataKeys[0].key
  {
  }

  lemma PieColoursDoNotCycle()
    ensures PieCellColors(4, [DataKey("a", Some("#f44336"), None), DataKey("b", Some("#4caf50"), None)])
            == ["#f44336", "#4caf50", Primary, Primary]
  {
  }

  /** Any other chart type shows the fallback message. */
  lemma UnsupportedType<P>(data: seq<P>, chartType: string, dataKeys: seq<DataKey>, xAxisKey: string)
    requires chartType !in {"line", "bar", "area", "pie"}
    ensures RenderBody(data, chartType, dataKeys, xAxisKey) == Unsupported("Tipo de gráfico não suportado")
  {
  }

  /** The tooltip's buckets as ranges, both directions: kilograms from 1000
      on, one decimal from 10 on, two decimals below. What is printed is the
      value, or the value in thousands for kilograms. */
  lemma QuantityBuckets(value: real)
    ensures FormatQuantity(value).unit == "kg" <==> value >= 1000.0
    ensures FormatQuantity(value).decimals == 1 <==> value >= 10.0
    ensures FormatQuantity(value).decimals == 2 <==> value < 10.0
    ensures FormatQuantity(value).amount * (if value >= 1000.0 then 1000.0 else 1.0) == value
    ensures value >= 1000.0 ==> FormatQuantity(value).amount >= 1.0
  {
  }

  lemma QuantityExamples()
    ensures FormatQuantity(1500.0) == Quantity(1.5, 1, "kg")
    ensures FormatQuantity(15.0) == Quantity(15.0, 1, "un")
    ensures FormatQuantity(5.0) == Quantity(5.0, 2, "un")
    ensures FormatQuantity(999.9) == Quantity(999.9, 1, "un")
  {
  }

  /** The tooltip shows something exactly when it is active with a
      non-empty payload, and then describes the first entry. */
  lemma TooltipShownOnlyWhenActive(active: bool, payload: Option<seq<PayloadEntry>>, caption: string)
    ensures CustomTooltip(active, payload, caption).Some? <==> active && payload.Some? && |payload.value| > 0
    ensures CustomTooltip(active, payload, caption).Some? ==>
              CustomTooltip(active, payload, caption).value.quantity == FormatQuantity(payload.value[0].value)
  {
  }
}
