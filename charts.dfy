/** The chart descriptor the parser produces (`ChartConfig` of the chart
    component), with the fields the parser fills in. */
module Charts {
  import opened Wrappers
  import opened Json

  datatype ChartType = Line | Bar | Column | Pie | Area | Scatter | Timeseries

  /** The spelling of each chart type in a directive and in `ChartConfig.type`. */
  function TypeName(t: ChartType): string {
    match t
    case Line => "line"
    case Bar => "bar"
    case Column => "column"
    case Pie => "pie"
    case Area => "area"
    case Scatter => "scatter"
    case Timeseries => "timeseries"
  }

  /** The types the directive pattern accepts, in the order of its alternation;
      `timeseries` is a valid `ChartConfig.type` but not among them. */
  const PatternTypes: seq<ChartType> := [Line, Bar, Column, Pie, Area, Scatter]

  /** A property read from a parsed JSON item (`item.name`, `item.values`):
      absent (`undefined`), a JSON value, or, for an item that is itself an
      array, the built-in method `Array.prototype.values`. */
  datatype Prop = Undefined | Defined(value: Json) | ArrayValuesMethod

  datatype ChartData = ChartData(name: Prop, values: Prop)

  /** `categories` holds whatever `JSON.parse` returned; `None` is an unset field. */
  datatype XAxis = XAxis(title: string, categories: Option<Json>)

  datatype YAxis = YAxis(title: string)

  datatype ChartConfig = ChartConfig(
    id: string,
    chartType: ChartType,
    title: string,
    xAxis: XAxis,
    yAxis: YAxis,
    data: seq<ChartData>)

  /** The text that replaces every directive in the displayed message,
      "[Chart visualization created - Check the workspace panel]", spelled in
      short pieces so that its characters can be reasoned about. */
  const Placeholder: string :=
    "[Chart " + "visualization " + "created - " + "Check the " + "workspace " + "panel]"
}
