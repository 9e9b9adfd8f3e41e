/**
 * The Story's chart-related records as the back-end sends them and the editor and
 * the story page read them: the chart configuration, the chart data with its
 * datasets, and the data-table configuration.
 */
module StoryData {
  import opened Common

  /** A JSON value, for the free-form parts of a chart configuration. */
  datatype Json =
    | JNull
    | JBool(b: bool)
    | JNumber(n: real)
    | JString(s: string)
    | JArray(items: seq<Json>)
    | JObject(members: map<string, Json>)

  /** A dataset's fill: one colour, or (for a pie chart) one colour per slice. */
  datatype Background = Color(color: string) | Palette(colors: seq<string>)

  /**
   * One dataset of a chart. Every field but `data` may be missing: a dataset
   * rebuilt from a missing `datasets[0]` has only the field that was set.
   */
  datatype Dataset = Dataset(
    legend: Option<string>,  // the dataset's `label`
    data: seq<real>,
    borderColor: Option<string>,
    backgroundColor: Option<Background>,
    borderWidth: Option<int>,
    fill: Option<bool>)

  /** The chart's labels and its datasets, each aligned by index with the labels. */
  datatype ChartData = ChartData(labels: seq<string>, datasets: seq<Dataset>)

  /** The chart's title and the option bag handed to the chart library. */
  datatype ChartConfig = ChartConfig(title: Option<string>, options: Option<map<string, Json>>)

  datatype TableConfig = TableConfig(title: Option<string>, showDownload: bool)

  /** A dataset with no field set: what spreading a missing `datasets[0]` starts from. */
  const BareDataset := Dataset(None, [], None, None, None, None)

  /** `datasets[0]`, or the bare dataset when there is none (its `data` then reads as empty). */
  function FirstDataset(cd: ChartData): (d: Dataset)
    ensures |cd.datasets| > 0 ==> d == cd.datasets[0]
    ensures |cd.datasets| == 0 ==> d == BareDataset
  {
    if |cd.datasets| > 0 then cd.datasets[0] else BareDataset
  }
}
