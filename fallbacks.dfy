/** The two other provider families. Stability edits the photo
    (image-to-image), falls back to its own text-to-image and then to a
    placeholder; DALL-E only generates and falls back to a placeholder. */
module Fallbacks {
  import opened Wrappers
  import opened JsText
  import opened ProviderTypes
  import opened Prompts

  /** The provider names the error descriptions use. */
  const StabilityName: string := "Stability AI API"
  const DalleName: string := "DALL-E API"

  /** What the descriptions of a Stability edit, a Stability generation and
      a DALL-E generation add after the scenario. */
  const StabilityEdited: string := "对房间进行了改造，使用Stable Diffusion图像编辑生成"
  const StabilityGenerated: string := "生成了房间改造方案，使用Stable Diffusion生成"
  const DalleGenerated: string := "生成了房间改造方案，使用DALL-E生成（注意：这是新生成的图像，不是修改原图）"

  /** `'data:image/png;base64,' + artifacts[0].base64`; reading a missing
      `artifacts` or an empty one throws. */
  function ArtifactImage(reply: StabilityReply): (r: Result<string, Failure>)
    ensures r.Ok? <==> reply.artifacts.Some? && reply.artifacts.value != []
    ensures r.Ok? ==> r.value == PngDataPrefix + Str(reply.artifacts.value[0])
  {
    match reply.artifacts
    case None => Err(TypeError("0"))
    case Some(artifacts) =>
      if artifacts == [] then Err(TypeError("base64"))
      else Ok(PngDataPrefix + Str(artifacts[0]))
  }

  /** The image a Stability call yields, or the error it throws. */
  function StabilityImage(response: Result<StabilityReply, Failure>): Result<string, Failure> {
    match response
    case Err(f) => Err(f)
    case Ok(reply) => ArtifactImage(reply)
  }

  /** `enhanceWithStabilityAI` with its text-to-image fallback. When both
      fail, the placeholder carries the image-to-image error. */
  function EnhanceWithStability(image: ImageBytes, scenario: Option<string>, net: Network): (run: Run)
    ensures AllTo(run.calls, StabilityFamily) && run.result.ImageResult?
    ensures 1 <= |run.calls| <= 2 && run.calls[0] == StabilityImageToImage(image, TransformPrompt(scenario))
    ensures |run.calls| == 2 <==> StabilityImage(net.stabilityImageToImage).Err?
    ensures |run.calls| == 2 ==> run.calls[1] == StabilityTextToImage(GenerationPrompt(scenario))
    ensures StabilityImage(net.stabilityImageToImage).Ok? ==>
              run.result == ImageResult(Some(StabilityImage(net.stabilityImageToImage).value),
                                        ForScenario(scenario) + StabilityEdited)
    ensures StabilityImage(net.stabilityImageToImage).Err? && StabilityImage(net.stabilityTextToImage).Ok? ==>
              run.result == ImageResult(Some(StabilityImage(net.stabilityTextToImage).value),
                                        ForScenario(scenario) + StabilityGenerated)
    ensures StabilityImage(net.stabilityImageToImage).Err? && StabilityImage(net.stabilityTextToImage).Err? ==>
              run.result == ImageResult(Some(StabilityPlaceholder),
                                        ErrorDescription(StabilityName, StabilityImage(net.stabilityImageToImage).error))
  {
    var edit := [StabilityImageToImage(image, TransformPrompt(scenario))];
    match StabilityImage(net.stabilityImageToImage)
    case Ok(url) =>
      Run(ImageResult(Some(url), ForScenario(scenario) + StabilityEdited), edit)
    case Err(f) =>
      var calls := edit + [StabilityTextToImage(GenerationPrompt(scenario))];
      match StabilityImage(net.stabilityTextToImage)
      case Ok(url) =>
        Run(ImageResult(Some(url), ForScenario(scenario) + StabilityGenerated), calls)
      case Err(_) =>
        Run(ImageResult(Some(StabilityPlaceholder), ErrorDescription(StabilityName, f)), calls)
  }

  /** `response.data.data[0].url`, possibly undefined; reading a missing
      `data` or an empty one throws. */
  function DalleImage(reply: DalleReply): (r: Result<Option<string>, Failure>)
    ensures r.Ok? <==> reply.data.Some? && reply.data.value != []
    ensures r.Ok? ==> r.value == reply.data.value[0]
  {
    match reply.data
    case None => Err(TypeError("0"))
    case Some(images) =>
      if images == [] then Err(TypeError("url")) else Ok(images[0])
  }

  /** `enhanceWithDalle`: one generation call, and a placeholder on any error. */
  function EnhanceWithDalle(scenario: Option<string>, net: Network): (run: Run)
    ensures run.calls == [DalleGenerate(GenerationPrompt(scenario))]
    ensures AllTo(run.calls, DalleFamily) && run.result.ImageResult?
    ensures net.dalle.Ok? && DalleImage(net.dalle.value).Ok? ==>
              run.result == ImageResult(DalleImage(net.dalle.value).value, ForScenario(scenario) + DalleGenerated)
    ensures net.dalle.Ok? && DalleImage(net.dalle.value).Err? ==>
              run.result == ImageResult(Some(DallePlaceholder), ErrorDescription(DalleName, DalleImage(net.dalle.value).error))
    ensures net.dalle.Err? ==>
              run.result == ImageResult(Some(DallePlaceholder), ErrorDescription(DalleName, net.dalle.error))
  {
    var calls := [DalleGenerate(GenerationPrompt(scenario))];
    var outcome := match net.dalle
                   case Err(f) => Err(f)
                   case Ok(reply) => DalleImage(reply);
    match outcome
    case Ok(url) =>
      Run(ImageResult(url, ForScenario(scenario) + DalleGenerated), calls)
    case Err(f) =>
      Run(ImageResult(Some(DallePlaceholder), ErrorDescription(DalleName, f)), calls)
  }
}
