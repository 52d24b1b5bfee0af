/** The application shell: the generation mode, the room specifications, the editor's
    items and the state of one generation (loading flag, plan, image URL, error), the
    `handleGenerate` flow that drives the two service calls, and which parts of the
    result pane are shown for a given state. */
module App {
  import opened Types
  import GeminiService

  datatype Mode = Auto | Manual

  /** The message shown when the plan cannot be produced. */
  const GenericError := "حدث خطأ أثناء إنشاء التصميم. يرجى المحاولة مرة أخرى."

  /** The specifications the application starts with. */
  function DefaultSpecs(): RoomSpecs
  {
    RoomSpecs(46.0, ["مطبخ بار", "انتريه", "حمام ضيوف", "مكتب عمل L"], "Modern Contemporary",
              "السلم دوران جاي من تحت على اليمين في بداية المساحة. باب جرار ألوميتال بيبص على باقي الروف الخارجي (أرضية نجيله صناعي).")
  }

  /** The design shown while the plan is being generated. */
  function EmptyDesignPlaceholder(): DesignResponse
  {
    DesignResponse("جاري التحليل...", "...", "...", [], [], "", [])
  }

  /** The items handed to the service: the editor's items in manual mode, none in
      automatic mode. */
  function ActiveItems(mode: Mode, floorItems: seq<FloorItem>): Option<seq<FloorItem>>
  {
    if mode == Manual then Some(floorItems) else None
  }

  // ---------------------------------------------------------------------------
  // The result pane
  // ---------------------------------------------------------------------------

  /** The state the result pane is drawn from. */
  datatype ResultState = ResultState(
    isLoading: bool,
    error: Option<string>,
    designResult: Option<DesignResponse>,
    imageUrl: Option<string>)

  /** A nullable string used as a condition: `null` and `""` are both false. */
  predicate Truthy(s: Option<string>)
  {
    s.Some? && s.value != ""
  }

  /** `{error && ...}` */
  predicate ShowsErrorBanner(v: ResultState)
  {
    Truthy(v.error)
  }

  /** `{!designResult && !isLoading && !error && ...}` */
  predicate ShowsEmptyState(v: ResultState)
  {
    v.designResult.None? && !v.isLoading && !Truthy(v.error)
  }

  /** `{(isLoading || designResult) && <ResultsSection .../>}` */
  predicate ShowsResults(v: ResultState)
  {
    v.isLoading || v.designResult.Some?
  }

  /** The design the result pane shows: the plan, or the placeholder while there is none. */
  function DisplayedDesign(v: ResultState): DesignResponse
  {
    if v.designResult.Some? then v.designResult.value else EmptyDesignPlaceholder()
  }

  /** `isLoadingImage={isLoading && !generatedImageUrl}`: the image area spins. */
  predicate ShowsImageSpinner(v: ResultState)
  {
    ShowsResults(v) && v.isLoading && !Truthy(v.imageUrl)
  }

  /** The image itself is shown. */
  predicate ShowsImage(v: ResultState)
  {
    ShowsResults(v) && !ShowsImageSpinner(v) && Truthy(v.imageUrl)
  }

  /** The "no image available" text is shown. */
  predicate ShowsNoImagePlaceholder(v: ResultState)
  {
    ShowsResults(v) && !ShowsImageSpinner(v) && !Truthy(v.imageUrl)
  }

  /** The pane is never blank, the empty state never appears beside the results or the
      error banner, and when results are shown exactly one of spinner, image and
      placeholder fills the image area. */
  lemma PaneShowsOneThing(v: ResultState)
    ensures ShowsEmptyState(v) || ShowsResults(v) || ShowsErrorBanner(v)
    ensures !(ShowsEmptyState(v) && ShowsResults(v))
    ensures !(ShowsEmptyState(v) && ShowsErrorBanner(v))
    ensures ShowsResults(v) ==>
      (ShowsImageSpinner(v) || ShowsImage(v) || ShowsNoImagePlaceholder(v)) &&
      !(ShowsImageSpinner(v) && ShowsImage(v)) &&
      !(ShowsImageSpinner(v) && ShowsNoImagePlaceholder(v)) &&
      !(ShowsImage(v) && ShowsNoImagePlaceholder(v))
  {
  }

  // ---------------------------------------------------------------------------
  // One generation as a function of what the two services answer
  // ---------------------------------------------------------------------------

  /** The state `handleGenerate` leaves behind, given the remote services' answers: the
      generic error when the plan fails (whatever the reason), else the plan and, when
      the image call succeeds, its URL. The image call receives the plan's concept name. */
  function Generated(mode: Mode, specs: RoomSpecs, floorItems: seq<FloorItem>,
                     planRemote: GeminiService.PlanPrompt -> Result<Option<string>, GeminiService.ServiceError>,
                     parse: string -> Result<DesignResponse, GeminiService.ServiceError>,
                     imageRemote: GeminiService.ImagePrompt -> Result<GeminiService.ImageResponse, GeminiService.ServiceError>)
    : ResultState
  {
    var items := ActiveItems(mode, floorItems);
    var plan := GeminiService.PlanOutcome(specs, items, planRemote, parse);
    if plan.Err? then ResultState(false, Some(GenericError), None, None)
    else
      var image := GeminiService.ImageOutcome(specs, Some(plan.value.conceptName), items, imageRemote);
      ResultState(false, None, Some(plan.value), if image.Ok? then Some(image.value) else None)
  }

  /** While a generation runs, before the plan arrives: results with the placeholder
      design and a spinning image area, no error, no empty state. */
  lemma LoadingView()
    ensures var v := ResultState(true, None, None, None);
      ShowsResults(v) && ShowsImageSpinner(v) && !ShowsErrorBanner(v) && !ShowsEmptyState(v) &&
      DisplayedDesign(v) == EmptyDesignPlaceholder()
  {
  }

  /** After the plan arrives and while the image is generated: the plan with a spinning
      image area. */
  lemma PlanArrivedView(plan: DesignResponse)
    ensures var v := ResultState(true, None, Some(plan), None);
      ShowsResults(v) && ShowsImageSpinner(v) && DisplayedDesign(v) == plan && !ShowsErrorBanner(v)
  {
  }

  /** A failed plan (remote failure, empty text or unparsable text) ends with the error
      banner alone: no results, no image, no empty state. */
  lemma PlanFailureShowsError(mode: Mode, specs: RoomSpecs, floorItems: seq<FloorItem>,
                              planRemote: GeminiService.PlanPrompt -> Result<Option<string>, GeminiService.ServiceError>,
                              parse: string -> Result<DesignResponse, GeminiService.ServiceError>,
                              imageRemote: GeminiService.ImagePrompt -> Result<GeminiService.ImageResponse, GeminiService.ServiceError>)
    requires GeminiService.PlanOutcome(specs, ActiveItems(mode, floorItems), planRemote, parse).Err?
    ensures var v := Generated(mode, specs, floorItems, planRemote, parse, imageRemote);
      ShowsErrorBanner(v) && v.error == Some(GenericError) &&
      !ShowsResults(v) && !ShowsEmptyState(v) && v.imageUrl.None?
  {
  }

  /** A plan whose image fails is still shown, without an error, with the
      "no image available" text: the image failure is swallowed. */
  lemma ImageFailureKeepsPlan(mode: Mode, specs: RoomSpecs, floorItems: seq<FloorItem>,
                              planRemote: GeminiService.PlanPrompt -> Result<Option<string>, GeminiService.ServiceError>,
                              parse: string -> Result<DesignResponse, GeminiService.ServiceError>,
                              imageRemote: GeminiService.ImagePrompt -> Result<GeminiService.ImageResponse, GeminiService.ServiceError>)
    requires GeminiService.PlanOutcome(specs, ActiveItems(mode, floorItems), planRemote, parse).Ok?
    requires GeminiService.ImageOutcome(specs, None, ActiveItems(mode, floorItems), imageRemote).Err?
    ensures var v := Generated(mode, specs, floorItems, planRemote, parse, imageRemote);
      ShowsResults(v) && !ShowsErrorBanner(v) && ShowsNoImagePlaceholder(v) &&
      DisplayedDesign(v) == GeminiService.PlanOutcome(specs, ActiveItems(mode, floorItems), planRemote, parse).value
  {
    var items := ActiveItems(mode, floorItems);
    var plan := GeminiService.PlanOutcome(specs, items, planRemote, parse);
    GeminiService.ImagePromptIgnoresConcept(specs, None, Some(plan.value.conceptName), items);
  }

  /** When both calls succeed the plan and the image are shown. */
  lemma FullSuccessShowsImage(mode: Mode, specs: RoomSpecs, floorItems: seq<FloorItem>,
                              planRemote: GeminiService.PlanPrompt -> Result<Option<string>, GeminiService.ServiceError>,
                              parse: string -> Result<DesignResponse, GeminiService.ServiceError>,
                              imageRemote: GeminiService.ImagePrompt -> Result<GeminiService.ImageResponse, GeminiService.ServiceError>)
    requires GeminiService.PlanOutcome(specs, ActiveItems(mode, floorItems), planRemote, parse).Ok?
    requires GeminiService.ImageOutcome(specs, None, ActiveItems(mode, floorItems), imageRemote).Ok?
    ensures var v := Generated(mode, specs, floorItems, planRemote, parse, imageRemote);
      ShowsResults(v) && ShowsImage(v) && !ShowsErrorBanner(v) &&
      v.imageUrl == Some(GeminiService.ImageOutcome(specs, None, ActiveItems(mode, floorItems), imageRemote).value) &&
      DisplayedDesign(v) == GeminiService.PlanOutcome(specs, ActiveItems(mode, floorItems), planRemote, parse).value
  {
    var items := ActiveItems(mode, floorItems);
    var plan := GeminiService.PlanOutcome(specs, items, planRemote, parse);
    GeminiService.ImagePromptIgnoresConcept(specs, None, Some(plan.value.conceptName), items);
    GeminiService.ImageOutcomeIsDataUri(specs, None, items, imageRemote);
  }

  /** In automatic mode the editor's items play no part: both prompts are the same
      whatever the items, the plan layout is the placeholder and the image layout the
      fixed default. */
  lemma AutoModeIgnoresEditor(specs: RoomSpecs, items1: seq<FloorItem>, items2: seq<FloorItem>,
                              planRemote: GeminiService.PlanPrompt -> Result<Option<string>, GeminiService.ServiceError>,
                              parse: string -> Result<DesignResponse, GeminiService.ServiceError>,
                              imageRemote: GeminiService.ImagePrompt -> Result<GeminiService.ImageResponse, GeminiService.ServiceError>)
    ensures Generated(Auto, specs, items1, planRemote, parse, imageRemote) ==
            Generated(Auto, specs, items2, planRemote, parse, imageRemote)
    ensures GeminiService.PlanPromptOf(specs, ActiveItems(Auto, items1)).layout == GeminiService.LayoutPlaceholder
    ensures GeminiService.ImagePromptOf(specs, None, ActiveItems(Auto, items1)).layout == GeminiService.DefaultImageLayout
  {
    GeminiService.PlanLayoutEmptyIffNoItems(None);
  }

  /** In manual mode with at least one item the plan prompt carries the description of
      the editor's layout, never the placeholder. */
  lemma ManualModeSendsLayout(specs: RoomSpecs, floorItems: seq<FloorItem>)
    requires floorItems != []
    ensures GeminiService.PlanPromptOf(specs, ActiveItems(Manual, floorItems)).layout ==
            GeminiService.PlanLayoutDescription(Some(floorItems))
    ensures GeminiService.PlanLayoutDescription(Some(floorItems)) != ""
  {
    GeminiService.PlanLayoutEmptyIffNoItems(Some(floorItems));
  }

  // ---------------------------------------------------------------------------
  // The application state
  // ---------------------------------------------------------------------------

  /** A call the application made to the design service: the arguments it passed and the
      prompt the service sent on with them. */
  datatype Request =
    | PlanRequest(specs: RoomSpecs, items: Option<seq<FloorItem>>, planPrompt: GeminiService.PlanPrompt)
    | ImageRequest(specs: RoomSpecs, concept: Option<string>, items: Option<seq<FloorItem>>,
                   imagePrompt: GeminiService.ImagePrompt)

  class Session {
    var mode: Mode
    var specs: RoomSpecs
    var floorItems: seq<FloorItem>
    var isLoading: bool
    var designResult: Option<DesignResponse>
    var generatedImageUrl: Option<string>
    var error: Option<string>

    /** Automatic mode, the default specifications, no items, nothing generated. */
    constructor ()
      ensures mode == Auto && specs == DefaultSpecs() && floorItems == []
      ensures View() == ResultState(false, None, None, None)
    {
      mode := Auto;
      specs := DefaultSpecs();
      floorItems := [];
      isLoading := false;
      designResult := None;
      generatedImageUrl := None;
      error := None;
    }

    function View(): ResultState
      reads this
    {
      ResultState(isLoading, error, designResult, generatedImageUrl)
    }

    method SetMode(m: Mode)
      modifies this`mode
      ensures mode == m
    {
      mode := m;
    }

    method SetSpecs(s: RoomSpecs)
      modifies this`specs
      ensures specs == s
    {
      specs := s;
    }

    /** What the editor hands back through `setItems`. */
    method SetFloorItems(items: seq<FloorItem>)
      modifies this`floorItems
      ensures floorItems == items
    {
      floorItems := items;
    }

    /** The start of a generation: loading, and the previous error, plan and image gone. */
    method Begin()
      modifies this`isLoading, this`error, this`designResult, this`generatedImageUrl
      ensures View() == ResultState(true, None, None, None)
    {
      isLoading := true;
      error := None;
      designResult := None;
      generatedImageUrl := None;
    }

    /** The plan has arrived: it is stored, and with loading still on it is shown while
        the image is being generated. */
    method ShowPlan(plan: DesignResponse)
      modifies this`designResult
      ensures View() == old(View()).(designResult := Some(plan))
    {
      designResult := Some(plan);
    }

    /** `handleGenerate`: one generation against the given remote services. It returns the
        calls it made to the service, with their arguments: always the plan call, with the
        specifications and the editor's items in manual mode or none in automatic mode,
        then the image call, with the specifications, the plan's concept name and the
        same items, only when the plan succeeded. `renders` lists the states the pane is drawn from
        after each step: loading, then the plan while the image is pending (only when
        the plan succeeded), then the final state. Mode, specifications and items are
        left alone. */
    method HandleGenerate(planRemote: GeminiService.PlanPrompt -> Result<Option<string>, GeminiService.ServiceError>,
                          parse: string -> Result<DesignResponse, GeminiService.ServiceError>,
                          imageRemote: GeminiService.ImagePrompt -> Result<GeminiService.ImageResponse, GeminiService.ServiceError>)
      returns (requests: seq<Request>, ghost renders: seq<ResultState>)
      modifies this`isLoading, this`error, this`designResult, this`generatedImageUrl
      ensures View() == Generated(mode, specs, floorItems, planRemote, parse, imageRemote)
      ensures !isLoading
      ensures var items := if mode == Manual then Some(floorItems) else None;
        var plan := GeminiService.PlanOutcome(specs, items, planRemote, parse);
        |requests| == (if plan.Ok? then 2 else 1) &&
        requests[0] == PlanRequest(specs, items, GeminiService.PlanPromptOf(specs, items)) &&
        (plan.Ok? ==> requests[1] == ImageRequest(specs, Some(plan.value.conceptName), items,
                                                  GeminiService.ImagePromptOf(specs, Some(plan.value.conceptName), items))) &&
        |renders| == |requests| + 1 &&
        renders[0] == ResultState(true, None, None, None) &&
        (plan.Ok? ==> renders[1] == ResultState(true, None, Some(plan.value), None)) &&
        renders[|renders| - 1] == View()
    {
      Begin();
      renders := [View()];
      var items := ActiveItems(mode, floorItems);
      var planPrompt, plan := GeminiService.GenerateDesignPlan(specs, items, planRemote, parse);
      requests := [PlanRequest(specs, items, planPrompt)];
      if plan.Err? {
        error := Some(GenericError);
      } else {
        ShowPlan(plan.value);
        renders := renders + [View()];
        var imagePrompt, image := GeminiService.GenerateDesignVisualization(specs, Some(plan.value.conceptName), items, imageRemote);
        requests := requests + [ImageRequest(specs, Some(plan.value.conceptName), items, imagePrompt)];
        if image.Ok? {
          generatedImageUrl := Some(image.value);
        }
      }
      isLoading := false;
      renders := renders + [View()];
    }
  }
}
