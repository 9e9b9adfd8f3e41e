/**
 * The public story page: which chart component draws the story, with which
 * options, and the button that fetches and toggles the story's data table.
 */
module StoryDetail {
  import opened Common
  import opened StoryData
  import opened ApiErrors
  import StoryDraft
  import DataTable

  /** The chart components the page can use. */
  datatype Renderer = LineChart | BarChart | PieChart

  /** The fields of a published story the chart reads. */
  datatype PublicStory = PublicStory(
    title: string,
    chartType: string,
    chartData: Option<ChartData>,
    chartConfig: Option<ChartConfig>)

  /** What `renderChart` draws: a component, the data, and the merged options. */
  datatype ChartView = ChartView(renderer: Renderer, data: ChartData, options: map<string, Json>)

  /** The `switch` on the chart type: 'bar' and 'column' draw bars, 'pie' a pie, anything else a line. */
  function SelectRenderer(chartType: string): (r: Renderer)
    ensures r == BarChart <==> chartType == "bar" || chartType == "column"
    ensures r == PieChart <==> chartType == "pie"
    ensures r == LineChart <==> chartType != "bar" && chartType != "column" && chartType != "pie"
  {
    match chartType
    case "line" => LineChart
    case "bar" => BarChart
    case "column" => BarChart
    case "pie" => PieChart
    case _ => LineChart
  }

  /** The plugin settings the page starts from: legend on top, title shown with the given text. */
  function DefaultPlugins(titleText: string): map<string, Json> {
    map["legend" := JObject(map["position" := JString("top")]),
        "title" := JObject(map["display" := JBool(true), "text" := JString(titleText)])]
  }

  function DefaultOptions(titleText: string): map<string, Json> {
    map["responsive" := JBool(true), "plugins" := JObject(DefaultPlugins(titleText))]
  }

  /** The chart's title: the configured one when non-empty, else the story's. */
  function ChartTitle(story: PublicStory, config: ChartConfig): string {
    OrElse(config.title, story.title)
  }

  /**
   * `renderChart`: nothing without chart data and configuration; otherwise the
   * chart component for the type, with the default options overridden key by key
   * by the stored ones (a shallow spread).
   */
  function RenderChart(story: PublicStory): (v: Option<ChartView>)
    ensures v.None? <==> story.chartData.None? || story.chartConfig.None?
    ensures v.Some? ==> v.value.renderer == SelectRenderer(story.chartType) && v.value.data == story.chartData.value
  {
    if story.chartData.None? || story.chartConfig.None? then None
    else
      var config := story.chartConfig.value;
      Some(ChartView(SelectRenderer(story.chartType), story.chartData.value,
                     DefaultOptions(ChartTitle(story, config)) + config.options.GetOr(map[])))
  }

  /**
   * Every stored option wins over the default of the same name; every default the
   * stored options leave out is kept; no other key appears.
   */
  lemma StoredOptionsOverride(story: PublicStory)
    requires story.chartData.Some? && story.chartConfig.Some?
    ensures var options := RenderChart(story).value.options;
      var stored := story.chartConfig.value.options.GetOr(map[]);
      var defaults := DefaultOptions(ChartTitle(story, story.chartConfig.value));
      (forall k :: k in stored ==> k in options && options[k] == stored[k])
      && (forall k :: k in defaults && k !in stored ==> k in options && options[k] == defaults[k])
      && (forall k :: k in options ==> k in stored || k in defaults)
  {
  }

  /** Without a stored `plugins` entry the title plugin shows the configured title, or else the story's. */
  lemma TitleShownWithoutStoredPlugins(story: PublicStory)
    requires story.chartData.Some? && story.chartConfig.Some?
    requires "plugins" !in story.chartConfig.value.options.GetOr(map[])
    ensures var title := OrElse(story.chartConfig.value.title, story.title);
      RenderChart(story).value.options["plugins"] == JObject(DefaultPlugins(title))
      && DefaultPlugins(title)["title"] == JObject(map["display" := JBool(true), "text" := JString(title)])
  {
  }

  /**
   * As written, a stored `plugins` entry replaces the default plugins as a whole.
   * The editor saves every new story with options holding `plugins.legend` only,
   * so such a story's chart has no title plugin, whatever title was configured.
   */
  lemma EditorDefaultsDropTitle(story: PublicStory)
    requires story.chartData.Some? && story.chartConfig.Some?
    requires story.chartConfig.value.options == Some(StoryDraft.InitialOptions)
    ensures var plugins := RenderChart(story).value.options["plugins"];
      plugins.JObject? && "title" !in plugins.members
  {
  }

  /** The options with the stored plugins merged into the default plugins one level down. */
  function MergedOptions(titleText: string, stored: map<string, Json>): map<string, Json> {
    var options := DefaultOptions(titleText) + stored;
    if "plugins" in stored && stored["plugins"].JObject? then
      options["plugins" := JObject(DefaultPlugins(titleText) + stored["plugins"].members)]
    else options
  }

  /** `renderChart` with the plugin settings merged instead of replaced. */
  function RenderChartMerged(story: PublicStory): (v: Option<ChartView>)
    ensures v.None? <==> story.chartData.None? || story.chartConfig.None?
    ensures v.Some? ==> v.value.renderer == SelectRenderer(story.chartType) && v.value.data == story.chartData.value
  {
    if story.chartData.None? || story.chartConfig.None? then None
    else
      var config := story.chartConfig.value;
      Some(ChartView(SelectRenderer(story.chartType), story.chartData.value,
                     MergedOptions(ChartTitle(story, config), config.options.GetOr(map[]))))
  }

  /**
   * With the merge, the title plugin shows the configured title (or the story's)
   * unless the stored plugins set their own title; in particular it does for the
   * editor's default options.
   */
  lemma MergedKeepsTitle(story: PublicStory)
    requires story.chartData.Some? && story.chartConfig.Some?
    requires var stored := story.chartConfig.value.options.GetOr(map[]);
      !("plugins" in stored && stored["plugins"].JObject? && "title" in stored["plugins"].members)
    requires var stored := story.chartConfig.value.options.GetOr(map[]);
      "plugins" in stored ==> stored["plugins"].JObject?
    ensures var plugins := RenderChartMerged(story).value.options["plugins"];
      var title := OrElse(story.chartConfig.value.title, story.title);
      plugins.JObject? && "title" in plugins.members
      && plugins.members["title"] == JObject(map["display" := JBool(true), "text" := JString(title)])
  {
  }

  /** The merge changes nothing for stored options without plugin settings. */
  lemma MergedAgreesWithoutPlugins(story: PublicStory)
    requires story.chartConfig.Some? ==> "plugins" !in story.chartConfig.value.options.GetOr(map[])
    ensures RenderChartMerged(story) == RenderChart(story)
  {
  }

  /** The table data `getDataTable` returns: the rows, header first. */
  datatype TableData = TableData(rows: Option<seq<DataTable.Row>>)

  /** The page's data-table toggle. */
  class StoryView {
    var showDataTable: bool
    var tableData: Option<TableData>

    constructor ()
      ensures !showDataTable && tableData == None
    {
      showDataTable := false;
      tableData := None;
    }

    /**
     * `handleShowData`: while hidden, fetch and show only on success; while shown,
     * hide without fetching. `fetched` says whether `getDataTable` was called.
     */
    method HandleShowData(response: Outcome<TableData>) returns (fetched: bool)
      modifies this
      ensures fetched == !old(showDataTable)
      ensures old(showDataTable) ==> !showDataTable && tableData == old(tableData)
      ensures !old(showDataTable) && response.Succeeded? ==> showDataTable && tableData == Some(response.value)
      ensures !old(showDataTable) && response.Failed? ==> !showDataTable && tableData == old(tableData)
    {
      if !showDataTable {
        fetched := true;
        if response.Succeeded? {
          tableData := Some(response.value);
          showDataTable := true;
        }
      } else {
        fetched := false;
        showDataTable := false;
      }
    }

    /** The table is drawn when it is toggled on and data has arrived. */
    function Shown(): Option<DataTable.TableView>
      reads this
    {
      if showDataTable && tableData.Some? then Some(DataTable.Layout(tableData.value.rows)) else None
    }
  }
}
