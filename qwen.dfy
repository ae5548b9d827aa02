/** `enhanceWithQwen` and its fallback `enhanceWithQwenWanx`: step 1 asks for a
    text analysis, later steps for an image edit whose reply is either inline
    or an asynchronous task; any error inside the attempt falls back to the
    Wanx text-to-image model and then to a placeholder. */
module Qwen {
  import opened Wrappers
  import opened JsText
  import opened ProviderTypes
  import opened Clutter
  import opened Prompts
  import opened Poller

  /** The analysis text reported when the reply carried none. */
  const AnalysisDone: string := "场景分析完成"
  const AnalysisDescription: string := "AI已完成房间场景分析"
  /** The error thrown for a reply with neither `choices` nor `task_id`. */
  const MalformedReply: Failure := Failure(None, "API响应格式不正确，请查看服务器日志")

  /** `content.find(item => item.text)?.text`, or "" when no item has a text. */
  function FirstText(items: seq<ContentItem>): (r: string)
    ensures r != "" <==> exists i :: 0 <= i < |items| && Truthy(items[i].text)
    ensures r != "" ==> exists i :: 0 <= i < |items| && items[i].text == Some(r)
                          && forall j :: 0 <= j < i ==> !Truthy(items[j].text)
  {
    if items == [] then ""
    else if Truthy(items[0].text) then items[0].text.value
    else
      var r := FirstText(items[1..]);
      assert forall i :: 1 <= i < |items| ==> items[i] == items[1..][i - 1];
      r
  }

  /** `content.find(item => item.image)?.image`. */
  function FirstImage(items: seq<ContentItem>): (r: Option<string>)
    ensures r.None? <==> forall i :: 0 <= i < |items| ==> !Truthy(items[i].image)
    ensures r.Some? ==> exists i :: 0 <= i < |items| && items[i].image == r
                          && Truthy(r) && forall j :: 0 <= j < i ==> !Truthy(items[j].image)
  {
    if items == [] then None
    else if Truthy(items[0].image) then items[0].image
    else
      var r := FirstImage(items[1..]);
      assert forall i :: 1 <= i < |items| ==> items[i] == items[1..][i - 1];
      r
  }

  /** The analysis text of a step-1 reply: "" without `choices`, `message` or
      `content`, and a TypeError when `choices` is empty (reading `message` of
      `choices[0]`). */
  function AnalysisText(reply: QwenReply): (r: Result<string, Failure>)
    ensures r.Err? <==> reply.choices == Some([])
    ensures r.Err? ==> r.error == TypeError("message")
    ensures reply.choices.None? ==> r == Ok("")
    ensures reply.choices.Some? && reply.choices.value != [] ==>
              var content := reply.choices.value[0].content;
              (content.None? ==> r == Ok(""))
              && (content.Some? ==> r == Ok(FirstText(content.value)))
  {
    match reply.choices
    case None => Ok("")
    case Some(choices) =>
      if choices == [] then Err(TypeError("message"))
      else
        match choices[0].content
        case None => Ok("")
        case Some(items) => Ok(FirstText(items))
  }

  /** The step-1 result for an analysis text. */
  function AnalysisOutcome(text: string): (r: EnhanceResult)
    ensures r.AnalysisResult? && r.description == AnalysisDescription
    ensures text == "" ==> r.analysis == AnalysisDone && r.clutterList == ""
    ensures text != "" ==> r.analysis == text && r.clutterList == ExtractClutterList(text)
  {
    AnalysisResult(OrElse(Some(text), AnalysisDone), AnalysisDescription, ExtractClutterList(text))
  }

  /** An image value of an inline reply as an image reference: a value that
      starts with "http" is a URL and passes through, anything else is a bare
      base64 payload and gets the PNG data-URL prefix. */
  function ImageReference(raw: string): (r: string)
    ensures StartsWith(r, "http") || StartsWith(r, PngDataPrefix)
    ensures |raw| <= |r| && r[|r| - |raw|..] == raw
    ensures r == raw <==> StartsWith(raw, "http")
    ensures !StartsWith(raw, "http") ==> r == PngDataPrefix + raw
  {
    if StartsWith(raw, "http") then raw else PngDataPrefix + raw
  }

  /** The three shapes of an edit reply. */
  datatype EditReply = Inline(imageUrl: Option<string>) | Deferred(taskId: string) | Malformed(failure: Failure)

  /** How an edit reply is read. `choices` is looked at before `task_id`; the
      first content item with an image is used; `choices` without any image
      gives an undefined image URL and no error. */
  function ClassifyEditReply(reply: QwenReply): (e: EditReply)
    ensures e.Inline? <==> reply.choices.Some? && reply.choices.value != []
    ensures reply.choices == Some([]) ==> e == Malformed(TypeError("message"))
    ensures reply.choices.None? && Truthy(reply.taskId) ==> e == Deferred(reply.taskId.value)
    ensures reply.choices.None? && !Truthy(reply.taskId) ==> e == Malformed(MalformedReply)
    ensures e.Inline? ==>
              var content := reply.choices.value[0].content;
              (e.imageUrl.None? <==> content.None? || FirstImage(content.value).None?)
              && (e.imageUrl.Some? ==> e.imageUrl.value == ImageReference(FirstImage(content.value).value))
  {
    match reply.choices
    case Some(choices) =>
      if choices == [] then Malformed(TypeError("message"))
      else
        match choices[0].content {
          case None => Inline(None)
          case Some(items) =>
            match FirstImage(items) {
              case None => Inline(None)
              case Some(raw) => Inline(Some(ImageReference(raw)))
            }
        }
    case None =>
      if Truthy(reply.taskId) then Deferred(reply.taskId.value)
      else Malformed(MalformedReply)
  }

  /** `url || 'data:image/png;base64,' + base64` of a Wanx reply; a missing
      payload prints as "undefined". */
  function WanxImage(reply: WanxReply): (r: string)
    ensures Truthy(reply.url) ==> r == reply.url.value
    ensures !Truthy(reply.url) ==> StartsWith(r, PngDataPrefix)
    ensures !Truthy(reply.url) ==> r == PngDataPrefix + Str(reply.base64)
  {
    if Truthy(reply.url) then reply.url.value else PngDataPrefix + Str(reply.base64)
  }

  /** The tail of the Wanx description, after the scenario part. */
  const WanxGenerated: string := "生成了房间改造方案，使用通义万相生成（注意：这是新生成的图像）"

  /** The catch block: Wanx text-to-image, and if that call fails too a
      placeholder whose description carries the ORIGINAL error's message. */
  function WanxFallback(scenario: Option<string>, wanx: Result<WanxReply, Failure>, original: Failure): (r: EnhanceResult)
    ensures r.ImageResult? && r.imageUrl.Some?
    ensures wanx.Ok? ==> r == ImageResult(Some(WanxImage(wanx.value)), ForScenario(scenario) + WanxGenerated)
    ensures wanx.Err? ==> r.imageUrl == Some(QwenPlaceholder)
    ensures wanx.Err? ==> r.description == ErrorDescription("通义千问API", original)
  {
    match wanx
    case Ok(reply) =>
      ImageResult(Some(WanxImage(reply)),
                  ForScenario(scenario) + WanxGenerated)
    case Err(_) =>
      ImageResult(Some(QwenPlaceholder), ErrorDescription("通义千问API", original))
  }

  /** What the `try` block of `enhanceWithQwen` produces: a result, or the
      error its catch block receives, with the calls made so far. */
  datatype Attempted = Attempted(outcome: Result<EnhanceResult, Failure>, calls: seq<Call>)

  /** The `try` block. Step "1" analyses; every other step edits with the
      step's prompt and the negative prompt, polling when the reply is an
      asynchronous task. */
  function QwenAttempt(image: ImageBytes, scenario: Option<string>, props: string, step: string,
                       clutterList: string, isRedo: bool, net: Network): (a: Attempted)
    requires MaxPollAttempts <= |net.taskPolls|
    ensures AllTo(a.calls, QwenFamily) && a.calls != []
    ensures step == "1" ==> a.calls == [QwenChat(image, SceneAnalysis, None)]
    ensures step != "1" ==> a.calls[0] == QwenChat(image, EditPrompt(step, clutterList, isRedo, scenario, props),
                                                   Some(NegativePrompt(clutterList)))
    ensures a.outcome.Ok? ==> (step == "1" <==> a.outcome.value.AnalysisResult?)
    ensures a.outcome.Ok? && step != "1" ==> a.outcome.value.description == EditDescription(step, scenario)
    ensures step == "1" && net.qwenAnalysis.Err? ==> a.outcome == Err(net.qwenAnalysis.error)
    ensures step == "1" && net.qwenAnalysis.Ok? ==>
              var text := AnalysisText(net.qwenAnalysis.value);
              (text.Err? ==> a.outcome == Err(TypeError("message")))
              && (text.Ok? ==> a.outcome == Ok(AnalysisOutcome(text.value)))
    ensures step != "1" && net.qwenEdit.Err? ==> a.outcome == Err(net.qwenEdit.error) && |a.calls| == 1
    ensures step != "1" && net.qwenEdit.Ok? ==>
              var e := ClassifyEditReply(net.qwenEdit.value);
              (e.Inline? ==> a.outcome == Ok(ImageResult(e.imageUrl, EditDescription(step, scenario))) && |a.calls| == 1)
              && (e.Malformed? ==> a.outcome == Err(e.failure) && |a.calls| == 1)
  {
    if step == "1" then
      var calls := [QwenChat(image, SceneAnalysis, None)];
      match net.qwenAnalysis
      case Err(f) => Attempted(Err(f), calls)
      case Ok(reply) =>
        match AnalysisText(reply)
        case Err(f) => Attempted(Err(f), calls)
        case Ok(text) => Attempted(Ok(AnalysisOutcome(text)), calls)
    else
      var calls := [QwenChat(image, EditPrompt(step, clutterList, isRedo, scenario, props),
                             Some(NegativePrompt(clutterList)))];
      var description := EditDescription(step, scenario);
      match net.qwenEdit
      case Err(f) => Attempted(Err(f), calls)
      case Ok(reply) =>
        match ClassifyEditReply(reply)
        case Malformed(f) => Attempted(Err(f), calls)
        case Inline(url) => Attempted(Ok(ImageResult(url, description)), calls)
        case Deferred(taskId) =>
          var polled := PollTask(net.taskPolls, MaxPollAttempts);
          var allCalls := calls + seq(polled.attempts, _ => TaskStatus(taskId));
          match polled.result
          case Err(f) => Attempted(Err(f), allCalls)
          case Ok(url) => Attempted(Ok(ImageResult(Some(url), description)), allCalls)
  }

  /** `enhanceWithQwen`: the attempt, and on any error the Wanx fallback. It
      never fails and never leaves the Qwen family. */
  function EnhanceWithQwen(image: ImageBytes, scenario: Option<string>, props: string, step: string,
                           clutterList: string, isRedo: bool, net: Network): (run: Run)
    requires MaxPollAttempts <= |net.taskPolls|
    ensures AllTo(run.calls, QwenFamily) && run.calls != []
    ensures run.result.AnalysisResult? ==> step == "1"
    ensures step == "1" ==> run.calls[0] == QwenChat(image, SceneAnalysis, None)
    ensures step != "1" ==> run.calls[0] == QwenChat(image, EditPrompt(step, clutterList, isRedo, scenario, props),
                                                     Some(NegativePrompt(clutterList)))
    ensures var a := QwenAttempt(image, scenario, props, step, clutterList, isRedo, net);
            (a.outcome.Ok? ==> run == Run(a.outcome.value, a.calls))
            && (a.outcome.Err? ==> run == Run(WanxFallback(scenario, net.wanx, a.outcome.error),
                                              a.calls + [WanxGenerate(GenerationPrompt(scenario))]))
  {
    var a := QwenAttempt(image, scenario, props, step, clutterList, isRedo, net);
    match a.outcome
    case Ok(r) => Run(r, a.calls)
    case Err(f) => Run(WanxFallback(scenario, net.wanx, f), a.calls + [WanxGenerate(GenerationPrompt(scenario))])
  }

  /** A step-1 reply whose first choice holds an analysis text yields that
      text and the clutter list extracted from it, with no fallback. */
  lemma AnalysisReplyUsed(image: ImageBytes, scenario: Option<string>, props: string,
                          clutterList: string, isRedo: bool, net: Network, text: string)
    requires MaxPollAttempts <= |net.taskPolls| && text != ""
    requires net.qwenAnalysis.Ok? && AnalysisText(net.qwenAnalysis.value) == Ok(text)
    ensures EnhanceWithQwen(image, scenario, props, "1", clutterList, isRedo, net)
            == Run(AnalysisResult(text, AnalysisDescription, ExtractClutterList(text)),
                   [QwenChat(image, SceneAnalysis, None)])
  {
    var a := QwenAttempt(image, scenario, props, "1", clutterList, isRedo, net);
    assert a.outcome == Ok(AnalysisOutcome(text));
  }

  /** When the edit call and the Wanx call both fail, an edit step still
      yields an image result: the Qwen placeholder, described with the edit
      call's error rather than the Wanx one. */
  lemma EditOutageAnswered(image: ImageBytes, scenario: Option<string>, props: string, step: string,
                           clutterList: string, isRedo: bool, net: Network)
    requires MaxPollAttempts <= |net.taskPolls| && step != "1"
    requires net.qwenEdit.Err? && net.wanx.Err?
    ensures EnhanceWithQwen(image, scenario, props, step, clutterList, isRedo, net).result
            == ImageResult(Some(QwenPlaceholder), ErrorDescription("通义千问API", net.qwenEdit.error))
  {
    var a := QwenAttempt(image, scenario, props, step, clutterList, isRedo, net);
    assert a.outcome == Err(net.qwenEdit.error);
  }

  /** An edit reply whose first choice holds no image is not an error: the
      step's description comes back with an undefined image URL, after the
      one edit call and without the Wanx fallback. */
  lemma ChoicesWithoutImage(image: ImageBytes, scenario: Option<string>, props: string, step: string,
                            clutterList: string, isRedo: bool, net: Network)
    requires MaxPollAttempts <= |net.taskPolls| && step != "1"
    requires net.qwenEdit.Ok? && net.qwenEdit.value.choices.Some? && net.qwenEdit.value.choices.value != []
    requires var content := net.qwenEdit.value.choices.value[0].content;
             content.None? || FirstImage(content.value).None?
    ensures EnhanceWithQwen(image, scenario, props, step, clutterList, isRedo, net)
            == Run(ImageResult(None, EditDescription(step, scenario)),
                   [QwenChat(image, EditPrompt(step, clutterList, isRedo, scenario, props), Some(NegativePrompt(clutterList)))])
  {
    assert ClassifyEditReply(net.qwenEdit.value) == Inline(None);
  }

  /** The `try` block on an asynchronous-task reply: the edit call, one
      status call per poll, and the poller's outcome. */
  lemma DeferredAttempt(image: ImageBytes, scenario: Option<string>, props: string, step: string,
                        clutterList: string, isRedo: bool, net: Network, taskId: string)
    requires MaxPollAttempts <= |net.taskPolls| && step != "1"
    requires net.qwenEdit.Ok? && net.qwenEdit.value.choices.None?
    requires net.qwenEdit.value.taskId == Some(taskId) && taskId != ""
    ensures var polled := PollTask(net.taskPolls, MaxPollAttempts);
            var a := QwenAttempt(image, scenario, props, step, clutterList, isRedo, net);
            a.calls == [QwenChat(image, EditPrompt(step, clutterList, isRedo, scenario, props), Some(NegativePrompt(clutterList)))]
                       + seq(polled.attempts, _ => TaskStatus(taskId))
            && a.outcome == match polled.result
                            case Ok(url) => Ok(ImageResult(Some(url), EditDescription(step, scenario)))
                            case Err(f) => Err(f)
  {
    assert ClassifyEditReply(net.qwenEdit.value) == Deferred(taskId);
  }

  /** An edit reply that is an asynchronous task is polled, one status call
      per attempt. The image the poller finds is the result; an error from
      the poller (a failure on the last attempt, or the timeout) goes to the
      Wanx fallback like any other error. */
  lemma DeferredTaskPolled(image: ImageBytes, scenario: Option<string>, props: string, step: string,
                           clutterList: string, isRedo: bool, net: Network, taskId: string)
    requires MaxPollAttempts <= |net.taskPolls| && step != "1"
    requires net.qwenEdit.Ok? && net.qwenEdit.value.choices.None?
    requires net.qwenEdit.value.taskId == Some(taskId) && taskId != ""
    ensures var polled := PollTask(net.taskPolls, MaxPollAttempts);
            var run := EnhanceWithQwen(image, scenario, props, step, clutterList, isRedo, net);
            |run.calls| > polled.attempts
            && (forall i :: 1 <= i <= polled.attempts ==> run.calls[i] == TaskStatus(taskId))
            && (polled.result.Ok? ==> run.result == ImageResult(Some(polled.result.value), EditDescription(step, scenario))
                                      && |run.calls| == 1 + polled.attempts)
            && (polled.result.Err? ==> run.result == WanxFallback(scenario, net.wanx, polled.result.error)
                                       && run.calls[|run.calls| - 1] == WanxGenerate(GenerationPrompt(scenario)))
  {
    DeferredAttempt(image, scenario, props, step, clutterList, isRedo, net, taskId);
    var a := QwenAttempt(image, scenario, props, step, clutterList, isRedo, net);
    var run := EnhanceWithQwen(image, scenario, props, step, clutterList, isRedo, net);
    assert run.calls[..|a.calls|] == a.calls;
  }
}
