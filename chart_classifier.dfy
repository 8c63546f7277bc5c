/** The front end's mock chart-data classifier: a visualization's declared type
    and its title select one canned dataset, by case-insensitive keyword tests
    on the title taken in a fixed, first-match-wins order. */
module ChartClassifier {
  import opened Text

  datatype Point = Point(name: string, value: real)

  /** The canned datasets, one per literal list in the classifier. */
  datatype Dataset =
    | Bands | Organizations | JobFamilies | Locations | WorkerTypes | Collars | Genders
    | TenureBuckets | Months | HoursByLocation | Weeks | Categories | Quarters | Types | NoData

  /** The literal points of each dataset; the number of points is the
      dataset's bucket count, and only the absent dataset is empty. */
  function Points(d: Dataset): (p: seq<Point>)
    ensures p == [] <==> d == NoData
    ensures d in {Bands, Organizations, Locations, TenureBuckets, Categories} ==> |p| == 5
    ensures d in {HoursByLocation, Weeks, Quarters, Types} ==> |p| == 4
    ensures d in {WorkerTypes, Genders} ==> |p| == 3
    ensures d == JobFamilies ==> |p| == 6
    ensures d == Collars ==> |p| == 2
    ensures d == Months ==> |p| == 12
  {
    match d
    case Bands =>
      [Point("Band I", 28.0), Point("Band II", 22.0), Point("Band III", 18.0), Point("Band IV", 20.0), Point("Band V", 12.0)]
    case Organizations =>
      [Point("AAB", 28.0), Point("AAC", 21.0), Point("HGD", 16.0), Point("XYZ", 19.0), Point("MNO", 12.0)]
    case JobFamilies =>
      [Point("Engineering", 28.0), Point("Sales", 22.0), Point("Operations", 18.0),
       Point("Customer Support", 17.0), Point("Admin", 12.0), Point("Finance", 8.0)]
    case Locations =>
      [Point("Mobile, AL", 22.0), Point("Herndon, VA", 18.0), Point("Austin, TX", 15.0),
       Point("Seattle, WA", 12.0), Point("Boston, MA", 10.0)]
    case WorkerTypes =>
      [Point("Regular", 62.0), Point("Temporary", 23.0), Point("Contractor", 15.0)]
    case Collars =>
      [Point("Blue Collar", 58.0), Point("White Collar", 42.0)]
    case Genders =>
      [Point("Male", 52.0), Point("Female", 45.0), Point("Non-binary", 3.0)]
    case TenureBuckets =>
      [Point("<1 year", 25.0), Point("1-2 years", 22.0), Point("2-5 years", 28.0),
       Point("5-10 years", 18.0), Point("10+ years", 7.0)]
    case Months =>
      [Point("Jan", 11.2), Point("Feb", 10.8), Point("Mar", 12.5), Point("Apr", 11.9),
       Point("May", 13.2), Point("Jun", 12.1), Point("Jul", 11.5), Point("Aug", 10.9),
       Point("Sep", 11.8), Point("Oct", 12.3), Point("Nov", 11.7), Point("Dec", 10.5)]
    case HoursByLocation =>
      [Point("Mobile, AL", 8.5), Point("Herndon, VA", 5.2), Point("Austin, TX", 6.8), Point("Seattle, WA", 4.9)]
    case Weeks =>
      [Point("Week 1", 42.0), Point("Week 2", 45.0), Point("Week 3", 43.0), Point("Week 4", 44.0)]
    case Categories =>
      [Point("Category A", 28.0), Point("Category B", 22.0), Point("Category C", 18.0),
       Point("Category D", 20.0), Point("Category E", 12.0)]
    case Quarters =>
      [Point("Q1", 65.0), Point("Q2", 72.0), Point("Q3", 68.0), Point("Q4", 81.0)]
    case Types =>
      [Point("Type A", 35.0), Point("Type B", 28.0), Point("Type C", 22.0), Point("Type D", 15.0)]
    case NoData => []
  }

  // The keyword groups, each tested on the lower-cased title.
  predicate MentionsBand(t: string) { Contains(t, "band") || Contains(t, "seniority") }
  predicate MentionsOrganization(t: string) { Contains(t, "supervisory") || Contains(t, "organization") }
  predicate MentionsJobFamily(t: string) { Contains(t, "job family") || Contains(t, "family") }
  predicate MentionsLocation(t: string) { Contains(t, "location") || Contains(t, "city") || Contains(t, "site") }
  predicate MentionsWorkerType(t: string) { Contains(t, "worker type") || Contains(t, "employment") }
  predicate MentionsCollar(t: string) { Contains(t, "collar") || Contains(t, "bc") || Contains(t, "wc") }
  predicate MentionsGender(t: string) { Contains(t, "gender") }
  predicate MentionsTenure(t: string) { Contains(t, "tenure") || Contains(t, "years") }
  predicate MentionsTrend(t: string) { Contains(t, "trend") || Contains(t, "monthly") || Contains(t, "time") }
  predicate MentionsHours(t: string) { Contains(t, "hours") || Contains(t, "overtime") }

  /** The keywords of rules 2 to 8, which select data whatever the chart type. */
  predicate MentionsFixedTopic(t: string) {
    MentionsOrganization(t) || MentionsJobFamily(t) || MentionsLocation(t) || MentionsWorkerType(t)
    || MentionsCollar(t) || MentionsGender(t) || MentionsTenure(t)
  }

  predicate IsChartType(vizType: string) {
    vizType == "bar" || vizType == "line" || vizType == "pie" || vizType == "donut"
  }

  /** The branch of the classifier that answers, given the lower-cased title
      `t`. The band data needs a band keyword, nothing is selected only for an
      unknown chart type, and the per-location hours and the quarterly
      fallback are never selected. */
  function Select(vizType: string, t: string): (d: Dataset)
    ensures d == Bands ==> MentionsBand(t)
    ensures d == NoData ==> !IsChartType(vizType)
    ensures d != HoursByLocation && d != Quarters
  {
    // the source tests bar, then donut or pie, with identical band literals
    if MentionsBand(t) && (vizType == "bar" || vizType == "donut" || vizType == "pie") then Bands
    else AfterBandRule(vizType, t)
  }

  /** The mock data for a chart: at most twelve points, and none only for an
      unknown chart type. */
  function MockChartData(vizType: string, title: string): (r: seq<Point>)
    ensures |r| <= 12
    ensures r == [] ==> !IsChartType(vizType)
  {
    Points(Select(vizType, ToLower(title)))
  }

  /** The rules after the band rule, as they decide when the band rule does not return. */
  function AfterBandRule(vizType: string, t: string): Dataset {
    if MentionsOrganization(t) then Organizations
    else if MentionsJobFamily(t) then JobFamilies
    else if MentionsLocation(t) then Locations
    // the source spells out identical literals for pie/donut and for the other types
    else if MentionsWorkerType(t) then (if vizType == "pie" || vizType == "donut" then WorkerTypes else WorkerTypes)
    else if MentionsCollar(t) then (if vizType == "pie" || vizType == "donut" then Collars else Collars)
    else if MentionsGender(t) then Genders
    else if MentionsTenure(t) then TenureBuckets
    else if vizType == "line" || MentionsTrend(t) then Months
    else if MentionsHours(t) then (if Contains(t, "location") then HoursByLocation else Weeks)
    else if vizType == "bar" then Categories
    else if vizType == "line" then Quarters
    else if vizType == "pie" || vizType == "donut" then Types
    else NoData
  }

  /** Distinct branches return distinct data, so a statement about the branch
      taken is a statement about the returned list. */
  lemma PointsInjective(d1: Dataset, d2: Dataset)
    requires d1 != d2
    ensures Points(d1) != Points(d2)
  {
  }

  /** The seniority-band list, exactly. */
  lemma SeniorityBandReport()
    ensures MockChartData("bar", "Seniority Band Report") ==
      [Point("Band I", 28.0), Point("Band II", 22.0), Point("Band III", 18.0), Point("Band IV", 20.0), Point("Band V", 12.0)]
  {
    var t := ToLower("Seniority Band Report");
    assert t[0..9] == "seniority";
    ContainsAt(t, "seniority", 0);
  }

  /** A band or seniority title yields the five-band list for bar, pie and donut charts alike. */
  lemma BandTitleGivesBands(vizType: string, title: string)
    requires MentionsBand(ToLower(title))
    requires vizType == "bar" || vizType == "pie" || vizType == "donut"
    ensures Select(vizType, ToLower(title)) == Bands
    ensures MockChartData(vizType, title) == Points(Bands)
  {
  }

  /** For any other chart type the band rule returns nothing: the later rules
      decide, and the band list is never the answer. */
  lemma BandRuleFallsThrough(vizType: string, title: string)
    requires vizType != "bar" && vizType != "pie" && vizType != "donut"
    ensures Select(vizType, ToLower(title)) == AfterBandRule(vizType, ToLower(title))
    ensures MockChartData(vizType, title) != Points(Bands)
  {
  }

  /** Only the lower-cased title matters. */
  lemma CaseInsensitive(vizType: string, title: string)
    ensures MockChartData(vizType, title) == MockChartData(vizType, ToLower(title))
  {
    ToLowerIdempotent(title);
  }

  /** The first matching rule wins: "Band Hours Report" is a band chart, not an hours chart. */
  lemma BandBeatsHours()
    ensures Select("bar", ToLower("Band Hours Report")) == Bands
    ensures MockChartData("bar", "Band Hours Report") == Points(Bands)
  {
    var t := ToLower("Band Hours Report");
    assert t[0..4] == "band";
    ContainsAt(t, "band", 0);
  }

  /** Any title mentioning "location" has already been answered by one of the
      first four rules. */
  lemma LocationTitleNeverReachesHours(vizType: string, title: string)
    requires Contains(ToLower(title), "location")
    ensures Select(vizType, ToLower(title)) in {Bands, Organizations, JobFamilies, Locations}
  {
  }

  /** So the per-location hours dataset is dead. */
  lemma HoursByLocationUnreachable(vizType: string, title: string)
    ensures Select(vizType, ToLower(title)) != HoursByLocation
    ensures MockChartData(vizType, title) != Points(HoursByLocation)
  {
    PointsInjective(Select(vizType, ToLower(title)), HoursByLocation);
  }

  /** A line chart that no topic rule catches gets the monthly series. */
  lemma LineChartNeverFallsBack(title: string)
    ensures !MentionsFixedTopic(ToLower(title)) ==> Select("line", ToLower(title)) == Months
  {
  }

  /** So the quarterly fallback is dead. */
  lemma QuarterlyUnreachable(vizType: string, title: string)
    ensures Select(vizType, ToLower(title)) != Quarters
    ensures MockChartData(vizType, title) != Points(Quarters)
  {
    PointsInjective(Select(vizType, ToLower(title)), Quarters);
  }

  /** The empty list comes back exactly for an unknown chart type whose title
      mentions none of the keywords of rules 2 to 10. */
  lemma EmptyExactlyForUnknownType(vizType: string, title: string)
    ensures MockChartData(vizType, title) == [] <==>
      !IsChartType(vizType) && !MentionsFixedTopic(ToLower(title))
      && !MentionsTrend(ToLower(title)) && !MentionsHours(ToLower(title))
  {
    var d := Select(vizType, ToLower(title));
    if d != NoData {
      PointsInjective(d, NoData);
    }
  }

  /** Pie and donut charts always receive the same data. */
  lemma PieAndDonutAgree(title: string)
    ensures MockChartData("pie", title) == MockChartData("donut", title)
  {
  }

  /** "job family" is subsumed by "family": the first test of rule 3 never decides anything. */
  lemma JobFamilyImpliesFamily(t: string)
    requires Contains(t, "job family")
    ensures Contains(t, "family")
  {
    var i :| 0 <= i <= |t| - 10 && OccursAt(t, "job family", i);
    assert t[i + 4..i + 10] == t[i..i + 10][4..10];
    ContainsAt(t, "family", i + 4);
  }

  /** A title without upper-case letters is its own lower-cased form. */
  lemma LowerTitle(t: string)
    requires forall i :: 0 <= i < |t| ==> !('A' <= t[i] <= 'Z')
    ensures ToLower(t) == t
  {
  }

  // Witnesses: each of the other datasets is returned for some input.

  lemma BandsReachable() ensures Select("bar", ToLower("band")) == Bands {
    LowerTitle("band");
    ContainsAt("band", "band", 0);
  }

  lemma OrganizationsReachable() ensures Select("bar", ToLower("organization")) == Organizations {
    var t := "organization";
    LowerTitle(t);
    MissingCharNotContained(t, "band", 'b');
    MissingCharNotContained(t, "seniority", 's');
    ContainsAt(t, "organization", 0);
  }

  lemma JobFamiliesReachable() ensures Select("bar", ToLower("family")) == JobFamilies {
    var t := "family";
    LowerTitle(t);
    MissingCharNotContained(t, "band", 'b');
    ContainsAt(t, "family", 0);
  }

  lemma LocationsReachable() ensures Select("bar", ToLower("city")) == Locations {
    var t := "city";
    LowerTitle(t);
    MissingCharNotContained(t, "band", 'b');
    ContainsAt(t, "city", 0);
  }

  lemma WorkerTypesReachable() ensures Select("bar", ToLower("employment")) == WorkerTypes {
    var t := "employment";
    LowerTitle(t);
    EmploymentMissesFirstRules();
    EmploymentMissesLocation();
    ContainsAt(t, "employment", 0);
  }

  lemma EmploymentMissesFirstRules()
    ensures !MentionsBand("employment") && !MentionsOrganization("employment") && !MentionsJobFamily("employment")
  {
    var t := "employment";
    MissingCharNotContained(t, "band", 'b');
    MissingCharNotContained(t, "seniority", 's');
    MissingCharNotContained(t, "job family", 'j');
    MissingCharNotContained(t, "family", 'f');
  }

  lemma EmploymentMissesLocation()
    ensures !MentionsLocation("employment")
  {
    var t := "employment";
    MissingCharNotContained(t, "location", 'c');
    MissingCharNotContained(t, "city", 'c');
    MissingCharNotContained(t, "site", 's');
  }

  lemma CollarsReachable() ensures Select("bar", ToLower("bc")) == Collars {
    LowerTitle("bc");
    ContainsAt("bc", "bc", 0);
  }

  lemma GendersReachable() ensures Select("bar", ToLower("gender")) == Genders {
    var t := "gender";
    LowerTitle(t);
    GenderMissesFirstRules();
    GenderMissesLaterRules();
    ContainsAt(t, "gender", 0);
  }

  lemma GenderMissesFirstRules()
    ensures !MentionsBand("gender") && !MentionsOrganization("gender") && !MentionsJobFamily("gender")
  {
    var t := "gender";
    MissingCharNotContained(t, "band", 'b');
    MissingCharNotContained(t, "seniority", 's');
    MissingCharNotContained(t, "supervisory", 's');
    MissingCharNotContained(t, "organization", 'o');
    MissingCharNotContained(t, "job family", 'j');
    MissingCharNotContained(t, "family", 'f');
  }

  lemma GenderMissesLaterRules()
    ensures !MentionsLocation("gender") && !MentionsWorkerType("gender") && !MentionsCollar("gender")
  {
    var t := "gender";
    MissingCharNotContained(t, "location", 'l');
    MissingCharNotContained(t, "city", 'c');
    MissingCharNotContained(t, "site", 's');
    MissingCharNotContained(t, "worker type", 'w');
    MissingCharNotContained(t, "employment", 'm');
    MissingCharNotContained(t, "collar", 'c');
    MissingCharNotContained(t, "bc", 'b');
    MissingCharNotContained(t, "wc", 'w');
  }

  lemma TenureBucketsReachable() ensures Select("bar", ToLower("years")) == TenureBuckets {
    var t := "years";
    LowerTitle(t);
    MissingCharNotContained(t, "band", 'b');
    MissingCharNotContained(t, "city", 'c');
    MissingCharNotContained(t, "site", 'i');
    MissingCharNotContained(t, "bc", 'b');
    MissingCharNotContained(t, "wc", 'w');
    ContainsAt(t, "years", 0);
  }

  lemma MonthsReachable() ensures Select("bar", ToLower("time")) == Months {
    var t := "time";
    LowerTitle(t);
    MissingCharNotContained(t, "band", 'b');
    MissingCharNotContained(t, "city", 'c');
    MissingCharNotContained(t, "site", 's');
    MissingCharNotContained(t, "bc", 'b');
    MissingCharNotContained(t, "wc", 'w');
    ContainsAt(t, "time", 0);
  }

  lemma WeeksReachable() ensures Select("bar", ToLower("hours")) == Weeks {
    var t := "hours";
    LowerTitle(t);
    HoursMissesEarlierRules();
    ContainsAt(t, "hours", 0);
  }

  lemma HoursMissesEarlierRules()
    ensures !MentionsBand("hours") && !MentionsFixedTopic("hours") && !MentionsTrend("hours")
  {
    var t := "hours";
    MissingCharNotContained(t, "band", 'b');
    MissingCharNotContained(t, "city", 'c');
    MissingCharNotContained(t, "site", 'i');
    MissingCharNotContained(t, "bc", 'b');
    MissingCharNotContained(t, "wc", 'w');
    MissingCharNotContained(t, "years", 'y');
    MissingCharNotContained(t, "trend", 't');
    MissingCharNotContained(t, "time", 't');
  }

  /** With no keyword in the title the chart type alone decides. */
  lemma FallbacksReachable()
    ensures Select("bar", ToLower("")) == Categories
    ensures Select("pie", ToLower("")) == Types
    ensures Select("donut", ToLower("")) == Types
    ensures Select("line", ToLower("")) == Months
    ensures Select("area", ToLower("")) == NoData
  {
    LowerTitle("");
  }
}
