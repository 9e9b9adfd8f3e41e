/**
 * The story editor's draft and the pure rules over it: parsing the comma-separated
 * label and value inputs, restyling the dataset when the chart type changes, the
 * image-caption map, the ordered validator and the multipart submission payload.
 */
module StoryDraft {
  import opened Common
  import opened Strings
  import opened StoryData

  /** The editor's `formData`. `status` is absent until a stored story is loaded. */
  datatype Draft = Draft(
    title: string,
    description: string,
    storyContent: string,
    chartType: string,
    chartConfig: ChartConfig,
    chartData: ChartData,
    tableConfig: TableConfig,
    status: Option<string>)

  /** The files picked in the form: featured image, data file and the new supporting images. */
  datatype Files = Files(featuredImage: Option<FileRef>, dataFile: Option<FileRef>, images: seq<FileRef>)

  /** An image already stored with the story. */
  datatype ExistingImage = ExistingImage(id: int, imagePath: string, caption: Option<string>)

  /** A key of the caption map: a stored image's id, or the `new_<index>` token of a picked file. */
  datatype CaptionKey = ExistingKey(id: int) | NewKey(index: nat)

  // ---------------------------------------------------------------- initial draft

  /** The option bag of a new story's chart configuration. */
  const InitialOptions: map<string, Json> := map[
    "responsive" := JBool(true),
    "plugins" := JObject(map["legend" := JObject(map["position" := JString("top")])]),
    "scales" := JObject(map["y" := JObject(map["beginAtZero" := JBool(true)])])]

  const LineBorder := "#3b82f6"
  const LineFill := "rgba(59, 130, 246, 0.1)"
  const BarFill := "rgba(59, 130, 246, 0.8)"
  const PieBorder := "#ffffff"
  const PiePalette := ["#3b82f6", "#10b981", "#f59e0b", "#ef4444", "#8b5cf6", "#06b6d4", "#84cc16", "#f97316"]

  /** The draft a new story starts from: empty texts, a line chart with one empty dataset. */
  function InitialDraft(): (d: Draft)
    ensures d.chartType == "line" && d.chartData.labels == [] && |d.chartData.datasets| == 1
    ensures FirstDataset(d.chartData).data == []
  {
    Draft("", "", "", "line",
      ChartConfig(Some(""), Some(InitialOptions)),
      ChartData([], [Dataset(Some("Data"), [], Some(LineBorder), Some(Color(LineFill)), Some(2), Some(false))]),
      TableConfig(Some("Data Tabel"), true),
      None)
  }

  /** A story as `getById` returns it; the three structured fields may be missing. */
  datatype StoredStory = StoredStory(
    title: string,
    description: string,
    storyContent: string,
    chartType: string,
    chartConfig: Option<ChartConfig>,
    chartData: Option<ChartData>,
    tableConfig: Option<TableConfig>,
    status: string,
    images: Option<seq<ExistingImage>>)

  /** `fetchStory`'s new form data: the stored story, with the current structured fields where it has none. */
  function HydratedDraft(current: Draft, story: StoredStory): (d: Draft)
    ensures d.title == story.title && d.description == story.description
    ensures d.storyContent == story.storyContent && d.chartType == story.chartType
    ensures d.chartConfig == story.chartConfig.GetOr(current.chartConfig)
    ensures d.chartData == story.chartData.GetOr(current.chartData)
    ensures d.tableConfig == story.tableConfig.GetOr(current.tableConfig)
    ensures d.status == Some(story.status)
  {
    Draft(story.title, story.description, story.storyContent, story.chartType,
      story.chartConfig.GetOr(current.chartConfig),
      story.chartData.GetOr(current.chartData),
      story.tableConfig.GetOr(current.tableConfig),
      Some(story.status))
  }

  // ---------------------------------------------------------------- labels and values

  /** The trimmed, non-empty pieces, in order. */
  function NonBlankTrimmed(pieces: seq<string>): seq<string> {
    if |pieces| == 0 then []
    else (if Trim(pieces[0]) != "" then [Trim(pieces[0])] else []) + NonBlankTrimmed(pieces[1..])
  }

  /** The labels typed into the label input: split on ',', trimmed, blanks dropped. */
  function ParseLabels(input: string): seq<string> {
    NonBlankTrimmed(Split(input, ','))
  }

  /** A well-formed label: non-empty, no surrounding white space, no comma. */
  predicate WellFormedLabel(l: string) {
    l != "" && !IsSpace(l[0]) && !IsSpace(l[|l| - 1]) && ',' !in l
  }

  /** Parsed labels are well formed, and there is one per piece that is not blank. */
  lemma {:induction false} ParsedLabelsWellFormed(pieces: seq<string>)
    requires forall i :: 0 <= i < |pieces| ==> ',' !in pieces[i]
    ensures forall i :: 0 <= i < |NonBlankTrimmed(pieces)| ==> WellFormedLabel(NonBlankTrimmed(pieces)[i])
    ensures |NonBlankTrimmed(pieces)| <= |pieces|
  {
    if |pieces| > 0 {
      ParsedLabelsWellFormed(pieces[1..]);
      var t := Trim(pieces[0]);
      if t != "" {
        assert ',' !in t by {
          var i := LeadingSpaces(pieces[0]);
          assert t == pieces[0][i..i + |t|];
        }
      }
    }
  }

  /** The label input shows `labels.join(', ')`; parsing that text gives the labels back. */
  lemma LabelsRoundTrip(labels: seq<string>)
    requires forall i :: 0 <= i < |labels| ==> WellFormedLabel(labels[i])
    ensures ParseLabels(Join(labels, ", ")) == labels
  {
    if |labels| == 0 {
      assert Split("", ',') == [""];
      assert Trim("") == "";
    } else {
      SplitShown(labels);
      TrimPadded(labels);
    }
  }

  /** The text `labels.join(', ')` splits on ',' into the padded pieces. */
  lemma SplitShown(labels: seq<string>)
    requires |labels| > 0
    requires forall i :: 0 <= i < |labels| ==> WellFormedLabel(labels[i])
    ensures Split(Join(labels, ", "), ',') == Padded(labels)
  {
    var padded := Padded(labels);
    JoinPadded(labels);
    forall i | 0 <= i < |padded| ensures ',' !in padded[i] {
      PieceAvoidsComma(labels, i);
    }
    SplitJoin(padded, ',');
  }

  lemma PieceAvoidsComma(labels: seq<string>, i: nat)
    requires i < |labels| && WellFormedLabel(labels[i])
    ensures ',' !in Padded(labels)[i]
  {
    var piece := Padded(labels)[i];
    if i > 0 {
      assert piece == [' '] + labels[i];
    }
  }

  /** The pieces `labels.join(', ')` splits into: the first label, then each other label after a space. */
  function Padded(labels: seq<string>): (r: seq<string>)
    requires |labels| > 0
    ensures |r| == |labels|
    ensures forall i :: 0 <= i < |r| ==> r[i] == if i == 0 then labels[0] else " " + labels[i]
  {
    [labels[0]] + seq(|labels| - 1, i requires 0 <= i < |labels| - 1 => " " + labels[i + 1])
  }

  lemma {:induction false} JoinPadded(labels: seq<string>)
    requires |labels| > 0
    ensures Join(labels, ", ") == Join(Padded(labels), ",")
    decreases |labels|
  {
    if |labels| > 1 {
      var p, q := Padded(labels), Padded(labels[1..]);
      var rest := Join(labels[1..], ", ");
      JoinPadded(labels[1..]);
      PaddedTail(labels);
      JoinPrefix(q, " ", ",");
      assert Join(p, ",") == labels[0] + "," + (" " + rest);
      assert labels[0] + "," + (" " + rest) == labels[0] + ", " + rest;
    }
  }

  lemma PaddedTail(labels: seq<string>)
    requires |labels| > 1
    ensures Padded(labels)[1..] == [" " + Padded(labels[1..])[0]] + Padded(labels[1..])[1..]
  {
  }

  lemma {:induction false} TrimPadded(labels: seq<string>)
    requires |labels| > 0
    requires forall i :: 0 <= i < |labels| ==> WellFormedLabel(labels[i])
    ensures NonBlankTrimmed(Padded(labels)) == labels
    decreases |labels|
  {
    var p := Padded(labels);
    TrimTrimmed(labels[0]);
    NonBlankFirst(p, labels[0]);
    if |labels| == 1 {
      assert NonBlankTrimmed(p[1..]) == [];
    } else {
      var rest := labels[1..];
      assert forall i :: 0 <= i < |rest| ==> rest[i] == labels[i + 1];
      TrimPadded(rest);
      PaddedTail(labels);
      TrimTrimmed(labels[1]);
      TrimLeadingSpace(labels[1]);
      NonBlankShift(Padded(rest), labels[1]);
    }
  }

  /** A first piece that trims to a non-empty text contributes that text first. */
  lemma NonBlankFirst(pieces: seq<string>, first: string)
    requires |pieces| > 0 && Trim(pieces[0]) == first && first != ""
    ensures NonBlankTrimmed(pieces) == [first] + NonBlankTrimmed(pieces[1..])
  {
  }

  /** Swapping the first piece for one with the same trimmed text does not change the result. */
  lemma NonBlankShift(q: seq<string>, l: string)
    requires |q| > 0 && Trim(" " + l) == Trim(q[0])
    ensures NonBlankTrimmed([" " + l] + q[1..]) == NonBlankTrimmed(q)
  {
    var r := [" " + l] + q[1..];
    assert r[0] == " " + l && r[1..] == q[1..];
  }

  /** Trimming a well-formed label with one space in front gives the label. */
  lemma TrimLeadingSpace(l: string)
    requires WellFormedLabel(l)
    ensures Trim(" " + l) == l
  {
    var s := " " + l;
    assert s[1..] == l;
    assert LeadingSpaces(s) == 1;
    var r := Trim(s);
    assert r == s[1..1 + |r|];
    assert s[|s| - 1] == l[|l| - 1];
  }

  /** The decimal number `parseFloat` reads at the start of a trimmed token, if any. */
  function ParseNumber(token: string): (r: Option<real>)
  {
    var negative := |token| > 0 && token[0] == '-';
    var body := if |token| > 0 && (token[0] == '-' || token[0] == '+') then token[1..] else token;
    var n := DigitRun(body);
    var frac := FractionDigits(body[n..]);
    if n == 0 && frac == "" then None
    else
      var magnitude := DecimalValue(body[..n], frac);
      Some(if negative then -magnitude else magnitude)
  }

  /** The digits after a leading '.', or none when the text does not start with '.'. */
  function FractionDigits(rest: string): (frac: string)
    ensures forall i :: 0 <= i < |frac| ==> '0' <= frac[i] <= '9'
  {
    if |rest| > 0 && rest[0] == '.' then rest[1..][..DigitRun(rest[1..])] else ""
  }

  /** The value of a whole part and a fraction part written in decimal digits. */
  function DecimalValue(whole: string, frac: string): real
    requires forall i :: 0 <= i < |whole| ==> '0' <= whole[i] <= '9'
    requires forall i :: 0 <= i < |frac| ==> '0' <= frac[i] <= '9'
  {
    DigitsValue(whole) as real + DigitsValue(frac) as real / Pow10(|frac|) as real
  }

  /** Without fraction digits the value is the whole part. */
  lemma WholeOnly(whole: string)
    requires forall i :: 0 <= i < |whole| ==> '0' <= whole[i] <= '9'
    ensures DecimalValue(whole, "") == DigitsValue(whole) as real
  {
    assert DigitsValue("") == 0 && Pow10(0) == 1;
  }

  /** The number of decimal digits `s` starts with. */
  function DigitRun(s: string): (n: nat)
    ensures n <= |s|
    ensures forall i :: 0 <= i < n ==> '0' <= s[i] <= '9'
  {
    if |s| > 0 && '0' <= s[0] <= '9' then 1 + DigitRun(s[1..]) else 0
  }

  function Pow10(k: nat): (p: nat)
    ensures p >= 1
  {
    if k == 0 then 1 else 10 * Pow10(k - 1)
  }

  /** One value token: its number, or 0 when it is not one (`isNaN(num) ? 0 : num`). */
  function ValueOf(token: string): real {
    ParseNumber(Trim(token)).GetOr(0.0)
  }

  /** The values typed into the data input: one number per comma-separated token. */
  function ParseValues(input: string): (values: seq<real>)
    ensures |values| == |Split(input, ',')|
    ensures forall i :: 0 <= i < |values| ==> values[i] == ValueOf(Split(input, ',')[i])
  {
    var tokens := Split(input, ',');
    seq(|tokens|, i requires 0 <= i < |tokens| => ValueOf(tokens[i]))
  }

  /** No token is dropped: a token that is not a number becomes 0, and so does an empty input. */
  lemma ValuesKeepEveryToken(input: string)
    ensures |ParseValues(input)| == |Split(input, ',')| >= 1
    ensures forall i :: 0 <= i < |ParseValues(input)| && ParseNumber(Trim(Split(input, ',')[i])).None? ==>
      ParseValues(input)[i] == 0.0
  {
  }

  /** `${n}` for a whole number `n`: its decimal digits. */
  function WholeText(values: seq<nat>): (texts: seq<string>)
    ensures |texts| == |values|
    ensures forall i :: 0 <= i < |values| ==> texts[i] == NatToString(values[i])
  {
    seq(|values|, i requires 0 <= i < |values| => NatToString(values[i]))
  }

  /**
   * The data input shows `data.join(', ')`; for whole numbers, parsing that text
   * gives the values back. (An empty list shows as '', which parses as [0].)
   */
  lemma ValuesRoundTrip(values: seq<nat>)
    requires |values| > 0
    ensures ParseValues(Join(WholeText(values), ", ")) == seq(|values|, i requires 0 <= i < |values| => values[i] as real)
  {
    var texts := WholeText(values);
    forall i | 0 <= i < |texts| ensures WellFormedLabel(texts[i]) {
      DigitsAreLabel(texts[i]);
    }
    SplitShown(texts);
    var parsed := ParseValues(Join(texts, ", "));
    var expected := seq(|values|, i requires 0 <= i < |values| => values[i] as real);
    forall i | 0 <= i < |values| ensures parsed[i] == expected[i] {
      PieceValue(texts, values, i);
    }
  }

  /** Piece i of the shown values text reads back as value i. */
  lemma PieceValue(texts: seq<string>, values: seq<nat>, i: nat)
    requires |texts| == |values| && i < |values|
    requires forall k :: 0 <= k < |texts| ==> texts[k] == NatToString(values[k]) && WellFormedLabel(texts[k])
    ensures ValueOf(Padded(texts)[i]) == values[i] as real
  {
    if i == 0 {
      TrimTrimmed(texts[0]);
    } else {
      TrimLeadingSpace(texts[i]);
    }
    ParseWhole(values[i]);
  }

  /** Decimal digits form a well-formed label: non-empty, no white space, no comma. */
  lemma DigitsAreLabel(t: string)
    requires |t| > 0 && forall k :: 0 <= k < |t| ==> '0' <= t[k] <= '9'
    ensures WellFormedLabel(t)
  {
  }

  /** `parseFloat` reads the decimal digits of a whole number back as that number. */
  lemma ParseWhole(n: nat)
    ensures ParseNumber(NatToString(n)) == Some(n as real)
  {
    var t := NatToString(n);
    ParseDigits(t);
    NatToStringValue(n);
  }

  /** A run of decimal digits alone reads as its value, with no fraction. */
  lemma ParseDigits(t: string)
    requires |t| > 0 && forall k :: 0 <= k < |t| ==> '0' <= t[k] <= '9'
    ensures ParseNumber(t) == Some(DigitsValue(t) as real)
  {
    AllDigits(t);
    assert t[0] != '-' && t[0] != '+';
    assert t[..DigitRun(t)] == t;
    assert t[DigitRun(t)..] == "";
    assert FractionDigits("") == "";
    WholeOnly(t);
  }

  lemma {:induction false} AllDigits(t: string)
    requires forall k :: 0 <= k < |t| ==> '0' <= t[k] <= '9'
    ensures DigitRun(t) == |t|
  {
    if |t| > 0 {
      AllDigits(t[1..]);
    }
  }

  // ---------------------------------------------------------------- chart data edits

  /** `handleChartDataChange('labels', input)`: replace the labels, keep the datasets. */
  function WithLabels(cd: ChartData, input: string): (r: ChartData)
    ensures r.labels == ParseLabels(input) && r.datasets == cd.datasets
  {
    cd.(labels := ParseLabels(input))
  }

  /**
   * `handleChartDataChange('data', input)`: `datasets` becomes one dataset, the
   * former first one with its values replaced.
   */
  function WithValues(cd: ChartData, input: string): (r: ChartData)
    ensures r.labels == cd.labels && |r.datasets| == 1
    ensures r.datasets[0] == FirstDataset(cd).(data := ParseValues(input))
  {
    cd.(datasets := [FirstDataset(cd).(data := ParseValues(input))])
  }

  /** `handleChartDataChange('label', text)`: the one dataset gets the legend label. */
  function WithDatasetLabel(cd: ChartData, text: string): (r: ChartData)
    ensures r.labels == cd.labels && |r.datasets| == 1
    ensures r.datasets[0] == FirstDataset(cd).(legend := Some(text))
  {
    cd.(datasets := [FirstDataset(cd).(legend := Some(text))])
  }

  // ---------------------------------------------------------------- chart type

  /** The dataset's presentation for a chart type. */
  function Styled(d: Dataset, chartType: string): Dataset {
    if chartType == "pie" then
      d.(backgroundColor := Some(Palette(PiePalette)), borderColor := Some(PieBorder), borderWidth := Some(2))
    else
      d.(backgroundColor := Some(Color(if chartType == "line" then LineFill else BarFill)),
         borderColor := Some(LineBorder), borderWidth := Some(2))
  }

  /** `handleChartTypeChange`: the first dataset is restyled in place; nothing else changes. */
  function Restyle(cd: ChartData, chartType: string): ChartData {
    var styled := Styled(FirstDataset(cd), chartType);
    if |cd.datasets| > 0 then cd.(datasets := cd.datasets[0 := styled]) else cd.(datasets := [styled])
  }

  function WithChartType(d: Draft, chartType: string): Draft {
    d.(chartType := chartType, chartData := Restyle(d.chartData, chartType))
  }

  /**
   * Changing the chart type keeps the labels, the values, the legend label and
   * every other dataset, and sets the type's colours: the eight-colour palette
   * with a white border for a pie, otherwise the blue border with a light fill
   * for a line and a solid fill for the rest; the border width is 2 either way.
   */
  lemma ChartTypeKeepsData(d: Draft, chartType: string)
    ensures WithChartType(d, chartType).chartType == chartType
    ensures WithChartType(d, chartType) == d.(chartType := chartType, chartData := WithChartType(d, chartType).chartData)
    ensures WithChartType(d, chartType).chartData.labels == d.chartData.labels
    ensures var f, g := FirstDataset(WithChartType(d, chartType).chartData), FirstDataset(d.chartData);
      f.data == g.data && f.legend == g.legend && f.fill == g.fill && f.borderWidth == Some(2)
    ensures var f := FirstDataset(WithChartType(d, chartType).chartData);
      chartType == "pie" ==> f.backgroundColor == Some(Palette(PiePalette)) && f.borderColor == Some(PieBorder)
    ensures var f := FirstDataset(WithChartType(d, chartType).chartData);
      chartType != "pie" ==>
        f.borderColor == Some(LineBorder) && f.backgroundColor == Some(Color(if chartType == "line" then LineFill else BarFill))
    ensures |d.chartData.datasets| > 0 ==>
      var ds := WithChartType(d, chartType).chartData.datasets;
      |ds| == |d.chartData.datasets| && ds[1..] == d.chartData.datasets[1..]
    ensures |d.chartData.datasets| == 0 ==> |WithChartType(d, chartType).chartData.datasets| == 1
  {
  }

  /** Only the latest chart type matters: switching to `a` and then `b` is the same as switching to `b`. */
  lemma LatestChartTypeWins(d: Draft, a: string, b: string)
    ensures WithChartType(WithChartType(d, a), b) == WithChartType(d, b)
  {
    var cd := d.chartData;
    assert FirstDataset(Restyle(cd, a)) == Styled(FirstDataset(cd), a);
    assert Styled(Styled(FirstDataset(cd), a), b) == Styled(FirstDataset(cd), b);
  }

  /** Switching a line chart to a pie and back restores the draft exactly. */
  lemma LinePieLine(d: Draft)
    requires d.chartType == "line" && |d.chartData.datasets| > 0
    requires FirstDataset(d.chartData) == Styled(FirstDataset(d.chartData), "line")
    ensures WithChartType(WithChartType(d, "pie"), "line") == d
  {
    LatestChartTypeWins(d, "pie", "line");
    assert d.chartData.datasets[0 := Styled(FirstDataset(d.chartData), "line")] == d.chartData.datasets;
  }

  // ---------------------------------------------------------------- captions and images

  /** The caption map `fetchStory` builds: each stored image's id to its caption or ''. */
  function HydratedCaptions(images: seq<ExistingImage>): (m: map<CaptionKey, string>)
    ensures forall k :: k in m <==> k.ExistingKey? && Lists(images, k.id)
  {
    if |images| == 0 then map[]
    else
      var last := images[|images| - 1];
      var m := HydratedCaptions(images[..|images| - 1])[ExistingKey(last.id) := OrElse(last.caption, "")];
      forall k ensures k in m <==> k.ExistingKey? && Lists(images, k.id) {
        if k.ExistingKey? && Lists(images, k.id) && k != ExistingKey(last.id) {
          var i :| 0 <= i < |images| && images[i].id == k.id;
          assert images[..|images| - 1][i] == images[i];
        }
      }
      m
  }

  /** Whether some stored image has the id. */
  predicate Lists(images: seq<ExistingImage>, id: int) {
    exists i :: 0 <= i < |images| && images[i].id == id
  }

  /** With distinct ids, each stored image's caption (or '' when it has none) is in the map under its id. */
  lemma {:induction false} HydratedCaptionOf(images: seq<ExistingImage>, i: nat)
    requires i < |images|
    requires forall a, b :: 0 <= a < b < |images| ==> images[a].id != images[b].id
    ensures HydratedCaptions(images)[ExistingKey(images[i].id)] == OrElse(images[i].caption, "")
    decreases |images|
  {
    if i < |images| - 1 {
      HydratedCaptionOf(images[..|images| - 1], i);
    }
  }

  /** Picking new images seeds `new_0 .. new_{n-1}` with '' and keeps every other key. */
  function SeedNewCaptions(captions: map<CaptionKey, string>, n: nat): (m: map<CaptionKey, string>)
    ensures forall i :: 0 <= i < n ==> NewKey(i) in m && m[NewKey(i)] == ""
    ensures forall k :: k in captions && !(k.NewKey? && k.index < n) ==> k in m && m[k] == captions[k]
    ensures forall k :: k in m ==> k in captions || (k.NewKey? && k.index < n)
  {
    captions + map k | k in NewKeys(n) :: ""
  }

  /** Seeding one more key extends the seeded map by that key. */
  lemma SeedOneMore(captions: map<CaptionKey, string>, n: nat)
    ensures SeedNewCaptions(captions, n)[NewKey(n) := ""] == SeedNewCaptions(captions, n + 1)
  {
    var before, after := SeedNewCaptions(captions, n)[NewKey(n) := ""], SeedNewCaptions(captions, n + 1);
    assert before.Keys == after.Keys;
    forall k | k in before ensures before[k] == after[k] {
      if k != NewKey(n) {
        assert k in SeedNewCaptions(captions, n);
      }
    }
  }

  function NewKeys(n: nat): (keys: set<CaptionKey>)
    ensures forall k :: k in keys <==> k.NewKey? && k.index < n
  {
    set i | 0 <= i < n :: NewKey(i)
  }

  /** The stored images that remain after removing `id`, in their order. */
  function WithoutImage(images: seq<ExistingImage>, id: int): seq<ExistingImage> {
    if |images| == 0 then []
    else (if images[0].id != id then [images[0]] else []) + WithoutImage(images[1..], id)
  }

  /**
   * `removeExistingImage(id)` drops exactly the images with that id: none is left,
   * each other image stays, and the order of what is kept does not change.
   */
  lemma {:induction false} WithoutImageExact(images: seq<ExistingImage>, id: int)
    ensures forall img :: img in WithoutImage(images, id) <==> img in images && img.id != id
    ensures |WithoutImage(images, id)| <= |images|
  {
    if |images| > 0 {
      WithoutImageExact(images[1..], id);
      assert forall img :: img in images <==> img == images[0] || img in images[1..];
    }
  }

  lemma {:induction false} WithoutImageOrder(a: seq<ExistingImage>, b: seq<ExistingImage>, id: int)
    ensures WithoutImage(a + b, id) == WithoutImage(a, id) + WithoutImage(b, id)
  {
    if |a| == 0 {
      assert a + b == b;
    } else {
      assert (a + b)[1..] == a[1..] + b;
      WithoutImageOrder(a[1..], b, id);
    }
  }

  /** Removing an image deletes only that caption key. */
  lemma RemoveCaptionOnly(captions: map<CaptionKey, string>, id: int)
    ensures var m := captions - {ExistingKey(id)};
      ExistingKey(id) !in m
      && forall k :: k != ExistingKey(id) ==> (k in m <==> k in captions) && (k in m ==> m[k] == captions[k])
  {
  }

  // ---------------------------------------------------------------- validation

  const TitleRequired := "Judul cerita harus diisi"
  const DescriptionRequired := "Deskripsi harus diisi"
  const ContentRequired := "Konten cerita harus diisi"
  const LabelsRequired := "Label chart harus diisi"
  const ValuesRequired := "Data chart harus diisi"
  const CountMismatch := "Jumlah label dan data harus sama"

  /** `validateForm`: the message of the first rule the draft breaks, or none. */
  function ValidateForm(d: Draft): Option<string> {
    var values := FirstDataset(d.chartData).data;
    if Trim(d.title) == "" then Some(TitleRequired)
    else if Trim(d.description) == "" then Some(DescriptionRequired)
    else if Trim(d.storyContent) == "" then Some(ContentRequired)
    else if |d.chartData.labels| == 0 then Some(LabelsRequired)
    else if |values| == 0 then Some(ValuesRequired)
    else if |d.chartData.labels| != |values| then Some(CountMismatch)
    else None
  }

  /** The six rules in their order, each with its message. */
  const RuleMessages := [TitleRequired, DescriptionRequired, ContentRequired, LabelsRequired, ValuesRequired, CountMismatch]

  /** Whether the draft keeps rule k (0-based). */
  predicate Keeps(d: Draft, k: nat)
    requires k < 6
  {
    var values := FirstDataset(d.chartData).data;
    match k
    case 0 => Trim(d.title) != ""
    case 1 => Trim(d.description) != ""
    case 2 => Trim(d.storyContent) != ""
    case 3 => |d.chartData.labels| != 0
    case 4 => |values| != 0
    case _ => |d.chartData.labels| == |values|
  }

  /**
   * The validator reports rule k's message exactly when rules 0..k-1 hold and rule
   * k does not, and reports nothing exactly when all six hold.
   */
  lemma ValidateFirstBroken(d: Draft)
    ensures forall k :: 0 <= k < 6 ==>
      (ValidateForm(d) == Some(RuleMessages[k]) <==> (forall j :: 0 <= j < k ==> Keeps(d, j)) && !Keeps(d, k))
    ensures ValidateForm(d).None? <==> forall k :: 0 <= k < 6 ==> Keeps(d, k)
  {
    MessagesDistinct();
    ValidateAsRules(d);
  }

  lemma MessagesDistinct()
    ensures forall j, k :: 0 <= j < k < 6 ==> RuleMessages[j] != RuleMessages[k]
  {
    assert forall j, k :: 0 <= j < k < 6 ==> |RuleMessages[j]| != |RuleMessages[k]|;
  }

  /** The validator as the chain of rules in order. */
  lemma ValidateAsRules(d: Draft)
    ensures ValidateForm(d) == if !Keeps(d, 0) then Some(RuleMessages[0])
      else if !Keeps(d, 1) then Some(RuleMessages[1])
      else if !Keeps(d, 2) then Some(RuleMessages[2])
      else if !Keeps(d, 3) then Some(RuleMessages[3])
      else if !Keeps(d, 4) then Some(RuleMessages[4])
      else if !Keeps(d, 5) then Some(RuleMessages[5])
      else None
  {
  }

  /** Filled texts with labels and values of different (non-zero) lengths are rejected for the count. */
  lemma LengthMismatchRejected(d: Draft)
    requires Trim(d.title) != "" && Trim(d.description) != "" && Trim(d.storyContent) != ""
    requires |d.chartData.labels| > 0 && |FirstDataset(d.chartData).data| > 0
    ensures ValidateForm(d) == (if |d.chartData.labels| == |FirstDataset(d.chartData).data| then None else Some(CountMismatch))
  {
  }

  /** The save button is disabled while saving and whenever the validator reports a message. */
  function SubmitDisabled(loading: bool, d: Draft): (disabled: bool)
    ensures !loading ==> (disabled <==> ValidateForm(d).Some?)
    ensures loading ==> disabled
  {
    loading || ValidateForm(d).Some?
  }

  /**
   * The save button is enabled exactly for a complete draft while no save is
   * running: non-blank title, description and content, at least one label, and
   * as many values as labels.
   */
  lemma SaveEnabledOnlyWhenComplete(loading: bool, d: Draft)
    ensures !SubmitDisabled(loading, d) <==>
      !loading && Trim(d.title) != "" && Trim(d.description) != "" && Trim(d.storyContent) != ""
      && |d.chartData.labels| > 0 && |d.chartData.labels| == |FirstDataset(d.chartData).data|
  {
    ValidateFirstBroken(d);
    assert ValidateForm(d).None? <==> forall k :: 0 <= k < 6 ==> Keeps(d, k);
    assert (forall k :: 0 <= k < 6 ==> Keeps(d, k)) <==>
      Keeps(d, 0) && Keeps(d, 1) && Keeps(d, 2) && Keeps(d, 3) && Keeps(d, 4) && Keeps(d, 5);
  }

  // ---------------------------------------------------------------- submission payload

  /** The caption and id sent back for a stored image in edit mode. */
  datatype ImageCaption = ImageCaption(id: int, caption: Option<string>)

  /** A multipart value: text, a file, or a structured value sent as its JSON text. */
  datatype PayloadValue =
    | Text(text: string)
    | Attachment(file: FileRef)
    | ChartConfigJson(config: ChartConfig)
    | ChartDataJson(data: ChartData)
    | TableConfigJson(table: TableConfig)
    | ExistingImagesJson(images: seq<ImageCaption>)

  datatype PayloadEntry = PayloadEntry(name: string, value: PayloadValue)

  /** The seven entries every submission starts with. */
  function BaseEntries(d: Draft): seq<PayloadEntry> {
    [PayloadEntry("title", Text(d.title)),
     PayloadEntry("description", Text(d.description)),
     PayloadEntry("story_content", Text(d.storyContent)),
     PayloadEntry("chart_type", Text(d.chartType)),
     PayloadEntry("chart_config", ChartConfigJson(d.chartConfig)),
     PayloadEntry("chart_data", ChartDataJson(d.chartData)),
     PayloadEntry("data_table_config", TableConfigJson(d.tableConfig))]
  }

  function FileEntries(files: Files): seq<PayloadEntry> {
    (if files.featuredImage.Some? then [PayloadEntry("featured_image", Attachment(files.featuredImage.value))] else [])
    + (if files.dataFile.Some? then [PayloadEntry("data_file", Attachment(files.dataFile.value))] else [])
  }

  /** The caption of new image i: `captions['new_i'] || ''`. */
  function NewCaption(captions: map<CaptionKey, string>, i: nat): string {
    OrElse(if NewKey(i) in captions then Some(captions[NewKey(i)]) else None, "")
  }

  /** The `images[i]` / `image_captions[i]` pairs of the new images. */
  function NewImageEntries(images: seq<FileRef>, captions: map<CaptionKey, string>): (es: seq<PayloadEntry>)
    ensures |es| == 2 * |images|
    ensures forall i :: 0 <= i < |images| ==>
      es[2 * i] == PayloadEntry("images[" + NatToString(i) + "]", Attachment(images[i]))
      && es[2 * i + 1] == PayloadEntry("image_captions[" + NatToString(i) + "]", Text(NewCaption(captions, i)))
  {
    if |images| == 0 then []
    else
      var n := |images| - 1;
      var es := NewImageEntries(images[..n], captions)
        + [PayloadEntry("images[" + NatToString(n) + "]", Attachment(images[n])),
           PayloadEntry("image_captions[" + NatToString(n) + "]", Text(NewCaption(captions, n)))];
      assert forall i :: 0 <= i < n ==> images[..n][i] == images[i];
      es
  }

  /** A stored image's caption as sent: `imageCaptions[id] || img.caption`. */
  function SentCaption(captions: map<CaptionKey, string>, img: ExistingImage): Option<string> {
    var edited := if ExistingKey(img.id) in captions then captions[ExistingKey(img.id)] else "";
    if edited != "" then Some(edited) else img.caption
  }

  function ExistingCaptions(captions: map<CaptionKey, string>, images: seq<ExistingImage>): (r: seq<ImageCaption>)
    ensures |r| == |images|
    ensures forall i :: 0 <= i < |images| ==> r[i] == ImageCaption(images[i].id, SentCaption(captions, images[i]))
  {
    seq(|images|, i requires 0 <= i < |images| => ImageCaption(images[i].id, SentCaption(captions, images[i])))
  }

  /** The whole payload of `handleSubmit`, in the order of its `append` calls. */
  function SubmissionSpec(d: Draft, files: Files, captions: map<CaptionKey, string>,
                          existing: seq<ExistingImage>, isEdit: bool): seq<PayloadEntry> {
    BaseEntries(d) + FileEntries(files) + NewImageEntries(files.images, captions)
    + (if isEdit then [PayloadEntry("existing_images", ExistingImagesJson(ExistingCaptions(captions, existing))),
                       PayloadEntry("_method", Text("PUT"))]
       else [])
  }

  /** `handleSubmit`'s payload: the `append` calls and the `forEach` over the new images. */
  method BuildSubmission(d: Draft, files: Files, captions: map<CaptionKey, string>,
                         existing: seq<ExistingImage>, isEdit: bool) returns (payload: seq<PayloadEntry>)
    ensures payload == SubmissionSpec(d, files, captions, existing, isEdit)
  {
    payload := BaseEntries(d);
    if files.featuredImage.Some? {
      payload := payload + [PayloadEntry("featured_image", Attachment(files.featuredImage.value))];
    }
    if files.dataFile.Some? {
      payload := payload + [PayloadEntry("data_file", Attachment(files.dataFile.value))];
    }
    assert payload == BaseEntries(d) + FileEntries(files);
    var imageEntries := AppendNewImages(files.images, captions);
    payload := payload + imageEntries;
    if isEdit {
      payload := payload + [PayloadEntry("existing_images", ExistingImagesJson(ExistingCaptions(captions, existing)))];
      payload := payload + [PayloadEntry("_method", Text("PUT"))];
    }
  }

  /** The `forEach` over the new images: each file, then its caption. */
  method AppendNewImages(images: seq<FileRef>, captions: map<CaptionKey, string>) returns (entries: seq<PayloadEntry>)
    ensures entries == NewImageEntries(images, captions)
  {
    entries := [];
    var i := 0;
    while i < |images|
      invariant 0 <= i <= |images|
      invariant entries == NewImageEntries(images[..i], captions)
    {
      entries := entries + [PayloadEntry("images[" + NatToString(i) + "]", Attachment(images[i])),
                            PayloadEntry("image_captions[" + NatToString(i) + "]", Text(NewCaption(captions, i)))];
      assert images[..i + 1][..i] == images[..i];
      i := i + 1;
    }
    assert images[..|images|] == images;
  }

  /** Whether some entry of the payload has this name. */
  predicate HasEntry(payload: seq<PayloadEntry>, name: string) {
    exists i :: 0 <= i < |payload| && payload[i].name == name
  }

  /**
   * Every payload starts with the seven base fields; the stored images and the
   * `_method=PUT` override are sent in edit mode only, as the last two entries.
   */
  lemma SubmissionShape(d: Draft, files: Files, captions: map<CaptionKey, string>,
                        existing: seq<ExistingImage>, isEdit: bool)
    ensures var p := SubmissionSpec(d, files, captions, existing, isEdit);
      p[..7] == BaseEntries(d)
      && |p| == 7 + |FileEntries(files)| + 2 * |files.images| + (if isEdit then 2 else 0)
      && (isEdit ==> p[|p| - 1] == PayloadEntry("_method", Text("PUT"))
                     && p[|p| - 2] == PayloadEntry("existing_images", ExistingImagesJson(ExistingCaptions(captions, existing))))
    ensures !isEdit ==> var p := SubmissionSpec(d, files, captions, existing, isEdit);
      !HasEntry(p, "_method") && !HasEntry(p, "existing_images")
  {
    if !isEdit {
      CreateHasNoOverride(d, files, captions, existing);
    }
  }

  lemma CreateHasNoOverride(d: Draft, files: Files, captions: map<CaptionKey, string>, existing: seq<ExistingImage>)
    ensures forall i :: 0 <= i < |SubmissionSpec(d, files, captions, existing, false)| ==>
      SubmissionSpec(d, files, captions, existing, false)[i].name != "_method"
      && SubmissionSpec(d, files, captions, existing, false)[i].name != "existing_images"
  {
    var p := SubmissionSpec(d, files, captions, existing, false);
    var base := BaseEntries(d) + FileEntries(files);
    var es := NewImageEntries(files.images, captions);
    assert p == base + es;
    forall i | 0 <= i < |p| ensures p[i].name != "_method" && p[i].name != "existing_images" {
      if i >= |base| {
        NewImageNameStart(files.images, captions, i - |base|);
        assert "_method"[0] == '_' && "existing_images"[0] == 'e';
      }
    }
  }

  /** Every new-image entry is named `images[..]` or `image_captions[..]`. */
  lemma NewImageNameStart(images: seq<FileRef>, captions: map<CaptionKey, string>, j: nat)
    requires j < 2 * |images|
    ensures |NewImageEntries(images, captions)[j].name| > 0 && NewImageEntries(images, captions)[j].name[0] == 'i'
  {
    var es := NewImageEntries(images, captions);
    var k := j / 2;
    if j == 2 * k {
      assert es[j].name == "images[" + NatToString(k) + "]";
      assert ("images[" + NatToString(k) + "]")[0] == 'i';
    } else {
      assert j == 2 * k + 1;
      assert es[j].name == "image_captions[" + NatToString(k) + "]";
      assert ("image_captions[" + NatToString(k) + "]")[0] == 'i';
    }
  }

  /** A stored image whose caption was cleared in the form is sent with its stored caption. */
  lemma ClearedCaptionKeepsStored(captions: map<CaptionKey, string>, img: ExistingImage)
    requires ExistingKey(img.id) in captions && captions[ExistingKey(img.id)] == ""
    ensures SentCaption(captions, img) == img.caption
  {
  }
}
