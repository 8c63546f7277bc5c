/** The JSON-shaped values the two halves exchange: optional values, object
    keys that may be missing or null, and the dashboard description that the
    assistant produces and the front end renders. */
module Json {

  datatype Option<T> = None | Some(value: T)

  /** One key of a JSON object: missing, present with `null`, or present with a value. */
  datatype Field<T> = Absent | Null | Present(value: T)

  /** Python's `obj.get(key, default)`: the default only when the key is missing;
      a key holding `null` yields `None`. */
  function GetOr<T>(f: Field<T>, default: T): (r: Option<T>)
    ensures f.Absent? ==> r == Some(default)
    ensures f.Null? ==> r == None
    ensures f.Present? ==> r == Some(f.value)
  {
    match f
    case Absent => Some(default)
    case Null => None
    case Present(v) => Some(v)
  }

  /** Python's `obj.get(key)`: `None` for a missing key and for `null`. */
  function Get<T>(f: Field<T>): (r: Option<T>)
    ensures r.Some? <==> f.Present?
    ensures r.Some? ==> r.value == f.value
  {
    match f
    case Present(v) => Some(v)
    case _ => None
  }

  /** One chart descriptor of a dashboard; `vizType` is one of bar, line, pie, donut. */
  datatype Visualization = Visualization(vizType: string, title: string, description: string)

  datatype Metric = Metric(title: string, value: string, insight: Option<string>)

  /** The dashboard payload, consumed structurally and never interpreted. */
  datatype Dashboard = Dashboard(
    title: string,
    subtitle: Option<string>,
    keyInsights: seq<string>,
    metrics: seq<Metric>,
    visualizations: seq<Visualization>)
}
