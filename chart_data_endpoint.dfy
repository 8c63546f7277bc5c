/** The back end's chart-data endpoint: mock series for a chart configuration,
    chosen by the topic its field list mentions (attrition before hours) and by
    the chart's shape. */
module ChartDataEndpoint {
  import opened Text
  import opened Json

  /** `chart_config`; `fields` holds the text `str(fields)` of the field list. */
  datatype ChartConfig = ChartConfig(chartType: Field<string>, fields: Field<string>, title: Field<string>)

  /** One dataset; pie-style datasets have no `label` key, and a title that is
      `null` gives a `null` label. */
  datatype Series = Series(name: Field<string>, data: seq<real>)

  datatype ChartData = ChartData(labels: seq<string>, datasets: seq<Series>)

  /** The JSON reply, or the status-500 error. */
  datatype ChartResponse = Chart(chart: ChartData) | ChartError

  /** Which group of mock data the fields select. */
  datatype Topic = Attrition | Hours | Generic

  /** `line`, `pie`/`donut`, or anything else (rendered as bars). */
  datatype Shape = Line | Round | Column

  /** `str(fields)` for the field list, defaulting to the empty list. */
  function FieldsText(f: Field<string>): (r: string)
    ensures f.Present? ==> r == f.value
  {
    match f
    case Absent => "[]"
    case Null => "None"
    case Present(s) => s
  }

  predicate MentionsAttrition(t: string) {
    Contains(t, "attrition") || Contains(t, "termination")
  }

  predicate MentionsHours(t: string) {
    Contains(t, "hours") || Contains(t, "overtime")
  }

  /** The topic of the lower-cased field text; attrition is tested first. */
  function TopicOf(t: string): (topic: Topic)
    ensures topic == Attrition <==> MentionsAttrition(t)
    ensures topic == Hours <==> !MentionsAttrition(t) && MentionsHours(t)
    ensures topic == Generic <==> !MentionsAttrition(t) && !MentionsHours(t)
  {
    if MentionsAttrition(t) then Attrition
    else if MentionsHours(t) then Hours
    else Generic
  }

  /** The shape of a chart type; `None` is a `type` given as `null`. */
  function ShapeOf(chartType: Option<string>): (s: Shape)
    ensures s == Line <==> chartType == Some("line")
    ensures s == Round <==> chartType == Some("pie") || chartType == Some("donut")
  {
    if chartType == Some("line") then Line
    else if chartType == Some("pie") || chartType == Some("donut") then Round
    else Column
  }

  /** The `label` of a dataset named after the chart's title. */
  function TitleLabel(title: Option<string>): (f: Field<string>)
    ensures f.Null? <==> title.None?
    ensures title.Some? ==> f == Present(title.value)
  {
    match title
    case Some(t) => Present(t)
    case None => Null
  }

  /** The mock data of each branch; every dataset has one value per label. */
  function MockData(topic: Topic, shape: Shape, title: Option<string>): (d: ChartData)
    ensures |d.labels| > 0 && |d.datasets| > 0
    ensures forall s :: s in d.datasets ==> |s.data| == |d.labels|
    ensures |d.datasets| == 2 <==> topic == Hours && shape == Line
    ensures shape == Round ==> forall s :: s in d.datasets ==> s.name.Absent?
  {
    match (topic, shape)
    case (Attrition, Line) =>
      ChartData(["Jan", "Feb", "Mar", "Apr", "May", "Jun", "Jul", "Aug", "Sep", "Oct", "Nov", "Dec"],
                [Series(Present("Monthly Attrition Rate (%)"),
                        [11.2, 10.8, 12.5, 11.9, 13.2, 12.1, 11.5, 10.9, 11.8, 12.3, 11.7, 10.5])])
    case (Attrition, Round) =>
      ChartData(["Engineering", "Sales", "Operations", "Support", "Admin"],
                [Series(Absent, [28.0, 22.0, 18.0, 20.0, 12.0])])
    case (Attrition, Column) =>
      ChartData(["Band I", "Band II", "Band III", "Band IV", "Band V"],
                [Series(Present("Attrition Count"), [15.0, 22.0, 18.0, 12.0, 8.0])])
    case (Hours, Line) =>
      ChartData(["Week 1", "Week 2", "Week 3", "Week 4"],
                [Series(Present("Planned Hours"), [1680.0, 1720.0, 1690.0, 1700.0]),
                 Series(Present("Overtime Hours"), [145.0, 168.0, 152.0, 138.0])])
    case (Hours, Round) =>
      ChartData(["Blue Collar", "White Collar"], [Series(Absent, [62.0, 38.0])])
    case (Hours, Column) =>
      ChartData(["Mobile, AL", "Herndon, VA", "Austin, TX", "Seattle, WA"],
                [Series(Present("Avg Overtime Hours/Employee"), [8.5, 5.2, 6.8, 4.9])])
    case (Generic, Round) =>
      ChartData(["Category A", "Category B", "Category C", "Category D"],
                [Series(Absent, [35.0, 28.0, 22.0, 15.0])])
    case (Generic, _) =>
      ChartData(["Q1", "Q2", "Q3", "Q4"], [Series(TitleLabel(title), [65.0, 72.0, 68.0, 81.0])])
  }

  /** The mock data for one configuration, chosen by the lower-cased field
      text, the type (default `bar`) and the title (default `Metric`); every
      dataset has one value per label. */
  function ChartFor(c: ChartConfig): (r: ChartData)
    ensures |r.labels| > 0 && forall s :: s in r.datasets ==> |s.data| == |r.labels|
  {
    MockData(TopicOf(ToLower(FieldsText(c.fields))), ShapeOf(GetOr(c.chartType, "bar")), GetOr(c.title, "Metric"))
  }

  /** The endpoint: a missing `chart_config` is the empty configuration; one
      given as `null` has no `get` and fails the request. */
  function GenerateChartData(config: Field<ChartConfig>): (r: ChartResponse)
    ensures r.ChartError? <==> config.Null?
    ensures r.Chart? ==> forall s :: s in r.chart.datasets ==> |s.data| == |r.chart.labels|
  {
    match config
    case Absent => Chart(ChartFor(ChartConfig(Absent, Absent, Absent)))
    case Null => ChartError
    case Present(c) => Chart(ChartFor(c))
  }

  /** Attrition and termination take precedence over hours and overtime. */
  lemma AttritionBeforeHours(c: ChartConfig)
    requires MentionsAttrition(ToLower(FieldsText(c.fields)))
    ensures ChartFor(c) == MockData(Attrition, ShapeOf(GetOr(c.chartType, "bar")), GetOr(c.title, "Metric"))
  {
  }

  /** Keywords are matched case-insensitively: any capitalisation of the field
      text selects the same data. */
  lemma FieldsCaseInsensitive(c: ChartConfig, d: ChartConfig)
    requires ToLower(FieldsText(c.fields)) == ToLower(FieldsText(d.fields))
    requires c.chartType == d.chartType && c.title == d.title
    ensures ChartFor(c) == ChartFor(d)
  {
  }

  /** A missing type, a `null` type and any unknown type all give the bar data. */
  lemma DefaultTypeIsBar(c: ChartConfig, other: string)
    requires other != "line" && other != "pie" && other != "donut"
    ensures ChartFor(c.(chartType := Absent)) == ChartFor(c.(chartType := Present("bar")))
    ensures ChartFor(c.(chartType := Null)) == ChartFor(c.(chartType := Present("bar")))
    ensures ChartFor(c.(chartType := Present(other))) == ChartFor(c.(chartType := Present("bar")))
  {
  }

  /** Pie and donut charts get the same data. */
  lemma PieAndDonutAgree(c: ChartConfig)
    ensures ChartFor(c.(chartType := Present("pie"))) == ChartFor(c.(chartType := Present("donut")))
  {
  }

  /** Without a known topic, a non-round chart is one quarterly series named
      after the title, `Metric` when the title is missing. */
  lemma GenericSeriesNamedAfterTitle(c: ChartConfig)
    requires TopicOf(ToLower(FieldsText(c.fields))) == Generic
    requires ShapeOf(GetOr(c.chartType, "bar")) != Round
    ensures ChartFor(c).labels == ["Q1", "Q2", "Q3", "Q4"]
    ensures ChartFor(c).datasets == [Series(TitleLabel(GetOr(c.title, "Metric")), [65.0, 72.0, 68.0, 81.0])]
    ensures c.title.Absent? ==> ChartFor(c).datasets[0].name == Present("Metric")
  {
  }

  /** The default field list mentions no topic. */
  lemma DefaultFieldsAreGeneric()
    ensures TopicOf(ToLower(FieldsText(Absent))) == Generic
    ensures TopicOf(ToLower(FieldsText(Null))) == Generic
  {
  }

  /** A request without `chart_config` is answered with the quarterly `Metric` series. */
  lemma MissingConfigGivesQuarters()
    ensures GenerateChartData(Absent)
         == Chart(ChartData(["Q1", "Q2", "Q3", "Q4"], [Series(Present("Metric"), [65.0, 72.0, 68.0, 81.0])]))
  {
  }
}
