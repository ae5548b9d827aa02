/** The `POST /api/enhance-room` route: resolve the image (uploaded file,
    data URL or downloaded URL), validate, run `enhanceRoomImage` and shape
    the JSON answer by the step. */
module Handler {
  import opened Wrappers
  import opened JsText
  import opened ProviderTypes
  import opened Prompts
  import opened Poller
  import Qwen
  import Clutter
  import opened Enhance

  /** The `isRedo` field: absent, a form string, or a JSON boolean. */
  datatype RedoField = RedoAbsent | RedoText(text: string) | RedoFlag(flag: bool)

  /** The parts of a request the route reads (`req.file` and `req.body`). */
  datatype Request = Request(
    file: Option<seq<bv8>>,
    scenario: Option<string>,
    props: Option<string>,
    step: Option<string>,
    previousImageUrl: Option<string>,
    clutterList: Option<string>,
    isRedo: RedoField)

  /** The answer: the step-1 body, the image body (fields that are undefined
      are left out of the JSON), or a 400 with its error text. */
  datatype Response =
    | AnalysisResponse(analysis: Option<string>, description: string, clutterList: string)
    | ImageResponse(imageUrl: Option<string>, description: string)
    | BadRequest(error: string)

  /** An answer with the network calls made to produce it. */
  datatype Exchange = Exchange(response: Response, calls: seq<Call>)

  const LoadFailedError: string := "Failed to load previous image"
  const MissingImageError: string := "Missing image"
  const MissingScenarioError: string := "Missing scenario for step 5"

  /** `isRedo === 'true' || isRedo === true` */
  function IsRedo(field: RedoField): (r: bool)
    ensures field.RedoAbsent? ==> !r
    ensures field.RedoText? ==> (r <==> field.text == "true")
    ensures field.RedoFlag? ==> r == field.flag
  {
    field == RedoText("true") || field == RedoFlag(true)
  }

  /** A JavaScript default parameter: used when the argument is undefined. */
  function Default(o: Option<string>, fallback: string): string {
    if o.Some? then o.value else fallback
  }

  /** The outcome of resolving the image: the buffer, whether loading the
      previous image failed (a 400), and the download made, if any. */
  datatype Loaded = Loaded(image: Option<ImageBytes>, failed: bool, calls: seq<Call>)

  /** The uploaded file wins; otherwise a non-empty `previousImageUrl` is
      decoded when it is a `data:image` URL (the text after its first comma,
      up to a second one) or else downloaded. A data URL without a comma
      makes the decoder throw, which counts as a load failure. */
  function LoadImage(req: Request, download: Result<seq<bv8>, Failure>): (l: Loaded)
    ensures l.failed ==> l.image.None?
    ensures req.file.Some? ==> l == Loaded(Some(Bytes(req.file.value)), false, [])
    ensures req.file.None? && !Truthy(req.previousImageUrl) ==> l == Loaded(None, false, [])
    ensures forall i :: 0 <= i < |l.calls| ==> l.calls[i] == FetchPreviousImage(req.previousImageUrl.value)
    ensures req.file.None? && Truthy(req.previousImageUrl) && StartsWith(req.previousImageUrl.value, "data:image") ==>
              l.calls == [] && (l.failed <==> ',' !in req.previousImageUrl.value)
              && (',' in req.previousImageUrl.value ==>
                    l.image == Some(Base64Decoded(SecondField(req.previousImageUrl.value, ',').value)))
    ensures req.file.None? && Truthy(req.previousImageUrl) && !StartsWith(req.previousImageUrl.value, "data:image") ==>
              l.calls == [FetchPreviousImage(req.previousImageUrl.value)] && (l.failed <==> download.Err?)
              && (download.Ok? ==> l.image == Some(Bytes(download.value)))
  {
    if req.file.Some? then Loaded(Some(Bytes(req.file.value)), false, [])
    else if Truthy(req.previousImageUrl) then
      var url := req.previousImageUrl.value;
      if StartsWith(url, "data:image") then
        match SecondField(url, ',')
        case None => Loaded(None, true, [])
        case Some(payload) => Loaded(Some(Base64Decoded(payload)), false, [])
      else
        match download
        case Err(_) => Loaded(None, true, [FetchPreviousImage(url)])
        case Ok(data) => Loaded(Some(Bytes(data)), false, [FetchPreviousImage(url)])
    else Loaded(None, false, [])
  }

  /** The body written for a result: step "1" (as sent, before any default)
      gets the analysis fields, every other step the image fields. */
  function Shape(step: Option<string>, r: EnhanceResult): (resp: Response)
    ensures step == Some("1") <==> resp.AnalysisResponse?
    ensures !resp.BadRequest? && resp.description == r.description
    ensures step == Some("1") && r.AnalysisResult? ==>
              resp.analysis == Some(r.analysis) && resp.clutterList == r.clutterList
    ensures step == Some("1") && r.ImageResult? ==> resp.analysis.None? && resp.clutterList == ""
    ensures step != Some("1") && r.ImageResult? ==> resp.imageUrl == r.imageUrl
    ensures step != Some("1") && r.AnalysisResult? ==> resp.imageUrl.None?
  {
    if step == Some("1") then
      match r
      case AnalysisResult(analysis, description, clutterList) =>
        AnalysisResponse(Some(analysis), description, OrElse(Some(clutterList), ""))
      case ImageResult(_, description) => AnalysisResponse(None, description, "")
    else
      match r
      case AnalysisResult(_, description, _) => ImageResponse(None, description)
      case ImageResult(imageUrl, description) => ImageResponse(imageUrl, description)
  }

  /** The specification of the route. The checks run in order: loading the
      previous image, a missing image, then a missing scenario for step "5";
      no check looks at whether earlier steps were done. */
  function Respond(req: Request, keys: Keys, net: Network, uriEncode: string -> string): (e: Exchange)
    requires MaxPollAttempts <= |net.taskPolls|
    ensures e.response == BadRequest(LoadFailedError) <==> LoadImage(req, net.previousImage).failed
    ensures e.response.BadRequest? <==>
              LoadImage(req, net.previousImage).image.None? || (req.step == Some("5") && !Truthy(req.scenario))
    ensures e.response.BadRequest? ==> NoProviderCall(e.calls)
    ensures !e.response.BadRequest? ==> (e.response.AnalysisResponse? <==> req.step == Some("1"))
  {
    var loaded := LoadImage(req, net.previousImage);
    if loaded.failed then Exchange(BadRequest(LoadFailedError), loaded.calls)
    else if loaded.image.None? then Exchange(BadRequest(MissingImageError), loaded.calls)
    else if !Truthy(req.scenario) && req.step == Some("5") then Exchange(BadRequest(MissingScenarioError), loaded.calls)
    else
      var run := StageRun(req, loaded.image.value, keys, net, uriEncode);
      Exchange(Shape(req.step, run.result), loaded.calls + run.calls)
  }

  /** The stage run of an accepted request: `enhanceRoomImage` on the
      resolved image and the request's fields as sent, its parameter
      defaults standing in for the fields left out, and the redo field
      coerced by `IsRedo`. */
  function StageRun(req: Request, image: ImageBytes, keys: Keys, net: Network, uriEncode: string -> string): Run
    requires MaxPollAttempts <= |net.taskPolls|
  {
    EnhanceRoomImage(image, req.scenario, Default(req.props, ""), Default(req.step, "1"),
                     Default(req.clutterList, ""), IsRedo(req.isRedo), keys, net, uriEncode)
  }

  /** An accepted request is answered with the shaped result of the stage
      run, after the download (if any). */
  lemma Accepted(req: Request, keys: Keys, net: Network, uriEncode: string -> string)
    requires MaxPollAttempts <= |net.taskPolls|
    requires LoadImage(req, net.previousImage).image.Some?
    requires req.step != Some("5") || Truthy(req.scenario)
    ensures var loaded := LoadImage(req, net.previousImage);
            var run := StageRun(req, loaded.image.value, keys, net, uriEncode);
            Respond(req, keys, net, uriEncode) == Exchange(Shape(req.step, run.result), loaded.calls + run.calls)
  {
  }

  /** The route handler, reassigning the image buffer as it resolves it. */
  method HandleEnhanceRoom(req: Request, keys: Keys, net: Network, uriEncode: string -> string)
    returns (response: Response, calls: seq<Call>)
    requires MaxPollAttempts <= |net.taskPolls|
    ensures Exchange(response, calls) == Respond(req, keys, net, uriEncode)
  {
    var imageBuffer: Option<ImageBytes> := if req.file.Some? then Some(Bytes(req.file.value)) else None;
    calls := [];
    if Truthy(req.previousImageUrl) && imageBuffer.None? {
      var url := req.previousImageUrl.value;
      if StartsWith(url, "data:image") {
        var base64Data := SecondField(url, ',');
        if base64Data.None? {
          return BadRequest(LoadFailedError), calls;
        }
        imageBuffer := Some(Base64Decoded(base64Data.value));
      } else {
        calls := [FetchPreviousImage(url)];
        if net.previousImage.Err? {
          return BadRequest(LoadFailedError), calls;
        }
        imageBuffer := Some(Bytes(net.previousImage.value));
      }
    }
    if imageBuffer.None? {
      return BadRequest(MissingImageError), calls;
    }
    if !Truthy(req.scenario) && req.step == Some("5") {
      return BadRequest(MissingScenarioError), calls;
    }
    var run := StageRun(req, imageBuffer.value, keys, net, uriEncode);
    response := Shape(req.step, run.result);
    calls := calls + run.calls;
  }

  /** No provider is contacted before the request is accepted. */
  predicate NoProviderCall(calls: seq<Call>) {
    forall i :: 0 <= i < |calls| ==> FamilyOf(calls[i]).None?
  }

  /** An uploaded file makes `previousImageUrl` irrelevant: it is neither
      decoded nor downloaded. */
  lemma UploadWins(req: Request, keys: Keys, net: Network, uriEncode: string -> string)
    requires MaxPollAttempts <= |net.taskPolls| && req.file.Some?
    ensures Respond(req, keys, net, uriEncode) == Respond(req.(previousImageUrl := None), keys, net, uriEncode)
  {
    assert LoadImage(req, net.previousImage) == LoadImage(req.(previousImageUrl := None), net.previousImage);
  }

  /** Without any image the answer is "Missing image", whatever the step and
      the scenario: the image is checked before the scenario. */
  lemma MissingImageFirst(req: Request, keys: Keys, net: Network, uriEncode: string -> string)
    requires MaxPollAttempts <= |net.taskPolls|
    requires req.file.None? && !Truthy(req.previousImageUrl)
    ensures Respond(req, keys, net, uriEncode) == Exchange(BadRequest(MissingImageError), [])
  {
  }

  /** Step "5" without a scenario is refused before any provider is contacted. */
  lemma Step5NeedsScenario(req: Request, keys: Keys, net: Network, uriEncode: string -> string)
    requires MaxPollAttempts <= |net.taskPolls|
    requires LoadImage(req, net.previousImage).image.Some?
    requires req.step == Some("5") && !Truthy(req.scenario)
    ensures Respond(req, keys, net, uriEncode).response == BadRequest(MissingScenarioError)
    ensures NoProviderCall(Respond(req, keys, net, uriEncode).calls)
  {
  }

  /** Once an image is available and step "5" has its scenario, every step is
      accepted, whatever happened before and whatever the providers answer:
      there is no prerequisite check, and provider errors never become an
      error answer. The body's shape follows the step as sent. */
  lemma EveryStepAccepted(req: Request, keys: Keys, net: Network, uriEncode: string -> string)
    requires MaxPollAttempts <= |net.taskPolls|
    requires LoadImage(req, net.previousImage).image.Some?
    requires req.step != Some("5") || Truthy(req.scenario)
    ensures !Respond(req, keys, net, uriEncode).response.BadRequest?
    ensures Respond(req, keys, net, uriEncode).response.AnalysisResponse? <==> req.step == Some("1")
  {
  }

  /** The redo flag reaches only steps "2" and "3": for any other step the
      whole exchange is the same with or without it. */
  lemma RedoIgnoredElsewhere(req: Request, keys: Keys, net: Network, uriEncode: string -> string, other: RedoField)
    requires MaxPollAttempts <= |net.taskPolls|
    requires Default(req.step, "1") != "2" && Default(req.step, "1") != "3"
    ensures Respond(req, keys, net, uriEncode) == Respond(req.(isRedo := other), keys, net, uriEncode)
  {
    var redone := req.(isRedo := other);
    var loaded := LoadImage(req, net.previousImage);
    assert LoadImage(redone, net.previousImage) == loaded;
    if loaded.image.Some? && (req.step != Some("5") || Truthy(req.scenario)) {
      var image := loaded.image.value;
      RedoIrrelevant(image, req.scenario, Default(req.props, ""), Default(req.step, "1"),
                     Default(req.clutterList, ""), keys, net, uriEncode);
      assert StageRun(req, image, keys, net, uriEncode) == StageRun(redone, image, keys, net, uriEncode);
      Accepted(req, keys, net, uriEncode);
      Accepted(redone, keys, net, uriEncode);
    }
  }

  /** On step "2" with Qwen, the edit call carries the coerced redo flag
      (only the text "true" or the boolean true) and the clutter list as sent. */
  lemma RedoReachesBasicCleanup(req: Request, keys: Keys, net: Network, uriEncode: string -> string)
    requires MaxPollAttempts <= |net.taskPolls|
    requires LoadImage(req, net.previousImage).image.Some?
    requires req.step == Some("2") && Configured(keys.qwen)
    ensures var calls := Respond(req, keys, net, uriEncode).calls;
            exists i :: 0 <= i < |calls| && calls[i].QwenChat?
              && calls[i].template == BasicCleanup(Default(req.clutterList, ""),
                                                   Some(req.isRedo == RedoText("true") || req.isRedo == RedoFlag(true)))
  {
    var loaded := LoadImage(req, net.previousImage);
    var run := StageRun(req, loaded.image.value, keys, net, uriEncode);
    assert run.calls[0].template == BasicCleanup(Default(req.clutterList, ""), Some(IsRedo(req.isRedo)));
    Accepted(req, keys, net, uriEncode);
    var calls := Respond(req, keys, net, uriEncode).calls;
    assert calls[|loaded.calls|] == run.calls[0];
  }

  /** A request without a step runs the scene analysis (the default step of
      `enhanceRoomImage` is "1") but is answered with the image body, so the
      analysis text and the clutter list are not returned. */
  lemma AbsentStepDropsAnalysis(req: Request, keys: Keys, net: Network, uriEncode: string -> string)
    requires MaxPollAttempts <= |net.taskPolls|
    requires LoadImage(req, net.previousImage).image.Some?
    requires req.step.None? && Configured(keys.qwen)
    requires net.qwenAnalysis.Ok? && Qwen.AnalysisText(net.qwenAnalysis.value).Ok?
    ensures Respond(req, keys, net, uriEncode).response == ImageResponse(None, Qwen.AnalysisDescription)
  {
    var image := LoadImage(req, net.previousImage).image.value;
    var run := StageRun(req, image, keys, net, uriEncode);
    Accepted(req, keys, net, uriEncode);
    var a := Qwen.QwenAttempt(image, req.scenario, Default(req.props, ""), "1", Default(req.clutterList, ""),
                              IsRedo(req.isRedo), net);
    var text := Qwen.AnalysisText(net.qwenAnalysis.value).value;
    assert a.outcome == Ok(Qwen.AnalysisOutcome(text));
    assert run.result == Qwen.AnalysisOutcome(text);
  }

  /** End to end on step "1": an analysis text whose leftmost bracketed
      clutter heading opens a section yields the analysis text itself and
      that section's trimmed body as the clutter list. */
  lemma StepOneReturnsClutterList(req: Request, keys: Keys, net: Network, uriEncode: string -> string,
                                  text: string, p: nat)
    requires MaxPollAttempts <= |net.taskPolls|
    requires LoadImage(req, net.previousImage).image.Some?
    requires req.step == Some("1") && Configured(keys.qwen)
    requires net.qwenAnalysis.Ok? && Qwen.AnalysisText(net.qwenAnalysis.value) == Ok(text)
    requires OccursAt(text, Clutter.FullLabel, p)
    requires forall j :: 0 <= j < p ==> !OccursAt(text, Clutter.FullLabel, j)
    ensures Respond(req, keys, net, uriEncode).response
            == AnalysisResponse(Some(text), Qwen.AnalysisDescription,
                                Trim(text[p + |Clutter.FullLabel|..Clutter.SectionEnd(text, p + |Clutter.FullLabel|)]))
  {
    var image := LoadImage(req, net.previousImage).image.value;
    var run := StageRun(req, image, keys, net, uriEncode);
    var props, clutter, redo := Default(req.props, ""), Default(req.clutterList, ""), IsRedo(req.isRedo);
    assert SelectRoute(keys) == Provider(QwenFamily);
    assert run == Qwen.EnhanceWithQwen(image, req.scenario, props, "1", clutter, redo, net);
    assert |Clutter.FullLabel| <= |text|;
    Qwen.AnalysisReplyUsed(image, req.scenario, props, clutter, redo, net, text);
    assert run.result == AnalysisResult(text, Qwen.AnalysisDescription, Clutter.ExtractClutterList(text));
    Clutter.FullLabelSection(text, p);
    Accepted(req, keys, net, uriEncode);
  }

  /** When the Qwen edit call and the Wanx call both fail, an accepted edit
      step is still answered, with the Qwen placeholder and the edit call's
      error message. */
  lemma QwenOutageAnswered(req: Request, keys: Keys, net: Network, uriEncode: string -> string)
    requires MaxPollAttempts <= |net.taskPolls|
    requires LoadImage(req, net.previousImage).image.Some?
    requires req.step.Some? && req.step.value != "1" && Configured(keys.qwen)
    requires req.step != Some("5") || Truthy(req.scenario)
    requires net.qwenEdit.Err? && net.wanx.Err?
    ensures Respond(req, keys, net, uriEncode).response
            == ImageResponse(Some(QwenPlaceholder), ErrorDescription("通义千问API", net.qwenEdit.error))
  {
    var image := LoadImage(req, net.previousImage).image.value;
    Qwen.EditOutageAnswered(image, req.scenario, Default(req.props, ""), req.step.value, Default(req.clutterList, ""),
                            IsRedo(req.isRedo), net);
    Accepted(req, keys, net, uriEncode);
  }
}
