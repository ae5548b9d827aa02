/** The values that flow between the server and its providers: the replies
    it reads (only the fields it looks at), the failures its catch blocks see,
    the provider calls it makes and the result it hands back to the route. */
module ProviderTypes {
  import opened Wrappers
  import opened JsText

  /** A thrown error as the catch blocks read it: the `message` field of an
      HTTP error response's body, if there was one, and the error's own message. */
  datatype Failure = Failure(responseMessage: Option<string>, message: string)

  /** `error.response?.data?.message || error.message` */
  function Reported(f: Failure): string {
    OrElse(f.responseMessage, f.message)
  }

  /** The TypeError the JavaScript runtime throws when a property is read from
      `undefined` (for instance `[][0].message`). */
  function TypeError(property: string): Failure {
    Failure(None, "Cannot read properties of undefined (reading '" + property + "')")
  }

  /** The prefix the server puts before a bare base64 PNG payload. */
  const PngDataPrefix: string := "data:image/png;base64,"

  /** The image buffer sent to a provider: bytes uploaded or downloaded, or
      `Buffer.from(text, 'base64')` of a data URL's payload (base64 decoding is
      not modelled, so the decoded buffer is named by its source text). */
  datatype ImageBytes = Bytes(data: seq<bv8>) | Base64Decoded(text: string)

  /** One entry of `choices[i].message.content`. */
  datatype ContentItem = ContentItem(text: Option<string>, image: Option<string>)

  /** One entry of `output.choices`; `content` is `message.content` when both
      `message` and `content` are present. */
  datatype Choice = Choice(content: Option<seq<ContentItem>>)

  /** A multimodal-generation reply: `output.choices` (None when `output` or
      `choices` is missing) and `output.task_id`. */
  datatype QwenReply = QwenReply(choices: Option<seq<Choice>>, taskId: Option<string>)

  /** `output.results?.[0]` of a task poll. */
  datatype TaskResult = TaskResult(image: Option<string>, url: Option<string>)

  /** A task poll reply: `output?.status` and `output.results?.[0]`. */
  datatype TaskReply = TaskReply(status: Option<string>, firstResult: Option<TaskResult>)

  /** A text-to-image reply of the Wanx model: `output?.results?.[0]?.url` and
      `output?.results?.[0]?.base64`. */
  datatype WanxReply = WanxReply(url: Option<string>, base64: Option<string>)

  /** A Stability reply: `artifacts`, each with its `base64` field. */
  datatype StabilityReply = StabilityReply(artifacts: Option<seq<Option<string>>>)

  /** A DALL-E reply: `data`, each with its `url` field. */
  datatype DalleReply = DalleReply(data: Option<seq<Option<string>>>)

  /** A call of one of the prompt-template generators, with its arguments;
      the templates themselves are not part of this model. */
  datatype Template =
    | SceneAnalysis
    | BasicCleanup(clutterList: string, isRedo: Option<bool>)
    | DeepCleanup(clutterList: string, isRedo: Option<bool>)
    | LayoutOptimize(clutterList: string)
    | AddProps(scenario: Option<string>, props: string, clutterList: string)
    | NegativePrompt(clutterList: string)

  /** The three provider families of the server. */
  datatype Family = QwenFamily | StabilityFamily | DalleFamily

  /** A network call made while serving one request, in the order made. */
  datatype Call =
    | FetchPreviousImage(url: string)
    | QwenChat(image: ImageBytes, template: Template, negative: Option<Template>)
    | TaskStatus(taskId: string)
    | WanxGenerate(prompt: string)
    | StabilityImageToImage(image: ImageBytes, prompt: string)
    | StabilityTextToImage(prompt: string)
    | DalleGenerate(prompt: string)

  /** The provider family a call goes to; fetching the previous image is not a
      provider call. */
  function FamilyOf(c: Call): Option<Family> {
    match c
    case FetchPreviousImage(_) => None
    case QwenChat(_, _, _) => Some(QwenFamily)
    case TaskStatus(_) => Some(QwenFamily)
    case WanxGenerate(_) => Some(QwenFamily)
    case StabilityImageToImage(_, _) => Some(StabilityFamily)
    case StabilityTextToImage(_) => Some(StabilityFamily)
    case DalleGenerate(_) => Some(DalleFamily)
  }

  /** Every call in `calls` goes to `family`. */
  predicate AllTo(calls: seq<Call>, family: Family) {
    forall i :: 0 <= i < |calls| ==> FamilyOf(calls[i]) == Some(family)
  }

  /** What `enhanceRoomImage` resolves to: the step-1 analysis object or an
      image object whose `imageUrl` may be undefined. */
  datatype EnhanceResult =
    | AnalysisResult(analysis: string, description: string, clutterList: string)
    | ImageResult(imageUrl: Option<string>, description: string)

  /** A result with the calls made to reach it. */
  datatype Run = Run(result: EnhanceResult, calls: seq<Call>)

  /** What every network call of one request answers: a reply or a thrown
      error. `taskPolls[i]` answers the i-th poll of an asynchronous task. */
  datatype Network = Network(
    previousImage: Result<seq<bv8>, Failure>,
    qwenAnalysis: Result<QwenReply, Failure>,
    qwenEdit: Result<QwenReply, Failure>,
    taskPolls: seq<Result<TaskReply, Failure>>,
    wanx: Result<WanxReply, Failure>,
    stabilityImageToImage: Result<StabilityReply, Failure>,
    stabilityTextToImage: Result<StabilityReply, Failure>,
    dalle: Result<DalleReply, Failure>)
}
