/**
 * The story editor component: its state (form data, picked files, stored images,
 * captions, error text, busy flag) and the handlers that update it.
 *
 * Each request the editor makes is an input: the handler receives the server's
 * answer as a parameter. Navigation is recorded in `navigatedTo`.
 */
module StoryEditor {
  import opened Common
  import opened StoryData
  import opened StoryDraft
  import opened ApiErrors

  const DashboardPath := "/admin/dashboard"
  const LoadFailed := "Gagal memuat cerita"
  const SaveFailed := "Gagal menyimpan cerita"

  /** The three text inputs wired to `handleInputChange`. */
  datatype TextField = TitleInput | DescriptionInput | ContentInput

  /** The three file inputs wired to `handleFileChange`. */
  datatype FileInput = FeaturedImageInput | DataFileInput | ImagesInput

  /** The three chart-data inputs wired to `handleChartDataChange`. */
  datatype ChartField = LabelsField | ValuesField | LegendField

  /** The request `handleSubmit` sends: `create(payload)` or `update(id, payload)`. */
  datatype SubmitRequest = CreateStory(payload: seq<PayloadEntry>) | UpdateStory(id: string, payload: seq<PayloadEntry>)

  /** The error text after a failed save: the server's `message` when it sent a non-empty one. */
  function SaveError(e: ApiError): (msg: string)
    ensures e.ResponseError? && e.data.message.Some? && e.data.message.value != "" ==> msg == e.data.message.value
    ensures !(e.ResponseError? && e.data.message.Some? && e.data.message.value != "") ==> msg == SaveFailed
    ensures msg != ""
  {
    if e.ResponseError? then OrElse(e.data.message, SaveFailed) else SaveFailed
  }

  /** A draft with one text field replaced. */
  function WithText(d: Draft, field: TextField, value: string): Draft {
    match field
    case TitleInput => d.(title := value)
    case DescriptionInput => d.(description := value)
    case ContentInput => d.(storyContent := value)
  }

  /** The files with one input's selection applied (`selectedFiles[0]` for the single-file inputs). */
  function WithSelection(files: Files, input: FileInput, selected: seq<FileRef>): Files {
    var first := if |selected| > 0 then Some(selected[0]) else None;
    match input
    case FeaturedImageInput => files.(featuredImage := first)
    case DataFileInput => files.(dataFile := first)
    case ImagesInput => files.(images := selected)
  }

  /** The chart data after one chart-data input changed. */
  function WithChartField(cd: ChartData, field: ChartField, value: string): ChartData {
    match field
    case LabelsField => WithLabels(cd, value)
    case ValuesField => WithValues(cd, value)
    case LegendField => WithDatasetLabel(cd, value)
  }

  /** Re-picking a single file replaces that file only; an empty pick clears it. */
  lemma SelectionIsolated(files: Files, input: FileInput, selected: seq<FileRef>)
    ensures input != ImagesInput ==> WithSelection(files, input, selected).images == files.images
    ensures input != FeaturedImageInput ==> WithSelection(files, input, selected).featuredImage == files.featuredImage
    ensures input != DataFileInput ==> WithSelection(files, input, selected).dataFile == files.dataFile
    ensures input == FeaturedImageInput && |selected| == 0 ==> WithSelection(files, input, selected).featuredImage == None
  {
  }

  class StoryEditor {
    /** The route's `id`: present when editing a stored story. */
    const editId: Option<string>
    var formData: Draft
    var files: Files
    var existingImages: seq<ExistingImage>
    var imageCaptions: map<CaptionKey, string>
    var loading: bool
    var error: string
    var navigatedTo: Option<string>

    /** The editor's initial state. */
    constructor (id: Option<string>)
      ensures editId == id && formData == InitialDraft()
      ensures files == Files(None, None, []) && existingImages == [] && imageCaptions == map[]
      ensures !loading && error == "" && navigatedTo == None
    {
      editId := id;
      formData := InitialDraft();
      files := Files(None, None, []);
      existingImages := [];
      imageCaptions := map[];
      loading := false;
      error := "";
      navigatedTo := None;
    }

    /**
     * `fetchStory` once `getById` has answered: load the story (keeping the current
     * structured fields where it has none) and, when it lists images, those images
     * and their captions; on failure only the error text is set.
     */
    method FetchStory(response: Outcome<StoredStory>)
      modifies this
      ensures !loading && files == old(files) && navigatedTo == old(navigatedTo)
      ensures response.Succeeded? ==> formData == HydratedDraft(old(formData), response.value) && error == old(error)
      ensures response.Succeeded? && response.value.images.Some? ==>
        existingImages == response.value.images.value && imageCaptions == HydratedCaptions(response.value.images.value)
      ensures response.Failed? || response.value.images.None? ==>
        existingImages == old(existingImages) && imageCaptions == old(imageCaptions)
      ensures response.Failed? ==> formData == old(formData) && error == LoadFailed
    {
      loading := true;
      if response.Failed? {
        error := LoadFailed;
      } else {
        var story := response.value;
        formData := HydratedDraft(formData, story);
        if story.images.Some? {
          var captions := CollectCaptions(story.images.value);
          existingImages, imageCaptions := story.images.value, captions;
        }
      }
      loading := false;
    }

    /** `handleInputChange`: one text field of the form data takes the typed value. */
    method HandleInputChange(field: TextField, value: string)
      modifies this
      ensures formData == WithText(old(formData), field, value)
      ensures files == old(files) && existingImages == old(existingImages) && imageCaptions == old(imageCaptions)
      ensures loading == old(loading) && error == old(error) && navigatedTo == old(navigatedTo)
    {
      formData := WithText(formData, field, value);
    }

    /**
     * `handleFileChange`: the single-file inputs keep the first picked file; the
     * images input keeps every picked file and resets the captions `new_0 ..`.
     */
    method HandleFileChange(input: FileInput, selected: seq<FileRef>)
      modifies this
      ensures files == WithSelection(old(files), input, selected)
      ensures input == ImagesInput ==> imageCaptions == SeedNewCaptions(old(imageCaptions), |selected|)
      ensures input != ImagesInput ==> imageCaptions == old(imageCaptions)
      ensures formData == old(formData) && existingImages == old(existingImages)
      ensures loading == old(loading) && error == old(error) && navigatedTo == old(navigatedTo)
    {
      files := WithSelection(files, input, selected);
      if input == ImagesInput {
        imageCaptions := SeedCaptions(imageCaptions, |selected|);
      }
    }

    /** `handleChartConfigChange('title', value)`: the chart title changes; its options do not. */
    method HandleChartTitleChange(value: string)
      modifies this
      ensures formData == old(formData).(chartConfig := old(formData).chartConfig.(title := Some(value)))
      ensures files == old(files) && existingImages == old(existingImages) && imageCaptions == old(imageCaptions)
      ensures loading == old(loading) && error == old(error) && navigatedTo == old(navigatedTo)
    {
      formData := formData.(chartConfig := formData.chartConfig.(title := Some(value)));
    }

    /** The table-title input: the data table's title changes; its download switch does not. */
    method HandleTableTitleChange(value: string)
      modifies this
      ensures formData == old(formData).(tableConfig := old(formData).tableConfig.(title := Some(value)))
      ensures files == old(files) && existingImages == old(existingImages) && imageCaptions == old(imageCaptions)
      ensures loading == old(loading) && error == old(error) && navigatedTo == old(navigatedTo)
    {
      formData := formData.(tableConfig := formData.tableConfig.(title := Some(value)));
    }

    /** `handleChartDataChange`: the labels, the values or the legend label are replaced from the input text. */
    method HandleChartDataChange(field: ChartField, value: string)
      modifies this
      ensures formData == old(formData).(chartData := WithChartField(old(formData).chartData, field, value))
      ensures files == old(files) && existingImages == old(existingImages) && imageCaptions == old(imageCaptions)
      ensures loading == old(loading) && error == old(error) && navigatedTo == old(navigatedTo)
    {
      formData := formData.(chartData := WithChartField(formData.chartData, field, value));
    }

    /** `handleChartTypeChange`: the type is set and the first dataset restyled for it. */
    method HandleChartTypeChange(chartType: string)
      modifies this
      ensures formData == WithChartType(old(formData), chartType)
      ensures files == old(files) && existingImages == old(existingImages) && imageCaptions == old(imageCaptions)
      ensures loading == old(loading) && error == old(error) && navigatedTo == old(navigatedTo)
    {
      formData := WithChartType(formData, chartType);
    }

    /** `handleImageCaptionChange`: one caption is set; every other caption stays. */
    method HandleImageCaptionChange(key: CaptionKey, caption: string)
      modifies this
      ensures imageCaptions == old(imageCaptions)[key := caption]
      ensures formData == old(formData) && files == old(files) && existingImages == old(existingImages)
      ensures loading == old(loading) && error == old(error) && navigatedTo == old(navigatedTo)
    {
      imageCaptions := imageCaptions[key := caption];
    }

    /** `removeExistingImage`: the stored image and its caption are dropped. */
    method RemoveExistingImage(id: int)
      modifies this
      ensures existingImages == WithoutImage(old(existingImages), id)
      ensures imageCaptions == old(imageCaptions) - {ExistingKey(id)}
      ensures formData == old(formData) && files == old(files)
      ensures loading == old(loading) && error == old(error) && navigatedTo == old(navigatedTo)
    {
      existingImages := WithoutImage(existingImages, id);
      imageCaptions := imageCaptions - {ExistingKey(id)};
    }

    /**
     * `handleSubmit`: send the payload (as an update with `_method=PUT` when editing,
     * as a create otherwise); on success go to the dashboard, on failure show the
     * server's message or the generic save error.
     */
    method HandleSubmit(failure: Option<ApiError>) returns (request: SubmitRequest)
      modifies this
      ensures editId.Some? ==> request == UpdateStory(editId.value, SubmissionSpec(formData, files, imageCaptions, existingImages, true))
      ensures editId.None? ==> request == CreateStory(SubmissionSpec(formData, files, imageCaptions, existingImages, false))
      ensures failure.None? ==> error == "" && navigatedTo == Some(DashboardPath)
      ensures failure.Some? ==> error == SaveError(failure.value) && navigatedTo == old(navigatedTo)
      ensures !loading
      ensures formData == old(formData) && files == old(files)
      ensures existingImages == old(existingImages) && imageCaptions == old(imageCaptions)
    {
      loading := true;
      error := "";
      var payload := BuildSubmission(formData, files, imageCaptions, existingImages, editId.Some?);
      if editId.Some? {
        request := UpdateStory(editId.value, payload);
      } else {
        request := CreateStory(payload);
      }
      if failure.None? {
        navigatedTo := Some(DashboardPath);
      } else {
        error := SaveError(failure.value);
      }
      loading := false;
    }

    /**
     * `handleSubmitForApproval`: nothing is sent for a story that was never saved;
     * otherwise `submitForApproval(id)` is sent and a success goes to the dashboard.
     */
    method HandleSubmitForApproval(failure: Option<ApiError>) returns (sent: Option<string>)
      modifies this
      ensures sent == editId
      ensures editId.Some? && failure.None? ==> navigatedTo == Some(DashboardPath)
      ensures editId.None? || failure.Some? ==> navigatedTo == old(navigatedTo)
      ensures formData == old(formData) && files == old(files) && existingImages == old(existingImages)
      ensures imageCaptions == old(imageCaptions) && loading == old(loading) && error == old(error)
    {
      if editId.None? {
        sent := None;
        return;
      }
      sent := editId;
      if failure.None? {
        navigatedTo := Some(DashboardPath);
      }
    }

    /** The save button's `disabled`. */
    predicate SaveDisabled()
      reads this
    {
      SubmitDisabled(loading, formData)
    }

    /** The submit-for-approval button is shown for a stored draft only. */
    predicate ApprovalOffered()
      reads this
    {
      editId.Some? && formData.status == Some("draft")
    }
  }

  /** The caption map of the stored images, built by the `forEach` in `fetchStory`. */
  method CollectCaptions(images: seq<ExistingImage>) returns (captions: map<CaptionKey, string>)
    ensures captions == HydratedCaptions(images)
  {
    captions := map[];
    var i := 0;
    while i < |images|
      invariant 0 <= i <= |images|
      invariant captions == HydratedCaptions(images[..i])
    {
      captions := captions[ExistingKey(images[i].id) := OrElse(images[i].caption, "")];
      assert images[..i + 1][..i] == images[..i];
      i := i + 1;
    }
    assert images[..|images|] == images;
  }

  /** The `for` loop of `handleFileChange` that sets `new_0 .. new_{n-1}` to ''. */
  method SeedCaptions(captions: map<CaptionKey, string>, n: nat) returns (seeded: map<CaptionKey, string>)
    ensures seeded == SeedNewCaptions(captions, n)
  {
    seeded := captions;
    var i := 0;
    while i < n
      invariant 0 <= i <= n
      invariant seeded == SeedNewCaptions(captions, i)
    {
      SeedOneMore(captions, i);
      seeded := seeded[NewKey(i) := ""];
      i := i + 1;
    }
  }

  /**
   * After a story is loaded for editing, every stored image has a caption entry
   * and the payload sends each of them back with that caption or, where it is
   * empty, with the stored one.
   */
  lemma LoadedCaptionsSentBack(images: seq<ExistingImage>, i: nat)
    requires i < |images|
    requires forall a, b :: 0 <= a < b < |images| ==> images[a].id != images[b].id
    ensures SentCaption(HydratedCaptions(images), images[i]) == images[i].caption
  {
    HydratedCaptionOf(images, i);
  }
}
