/** `enhanceRoomImage`: pick one provider family by the configured keys, in
    the fixed order Qwen, Stability, DALL-E, and hand the whole request to
    it; with no key at all, return a simulated result. */
module Enhance {
  import opened Wrappers
  import opened JsText
  import opened ProviderTypes
  import opened Prompts
  import opened Poller
  import Qwen
  import Fallbacks

  /** The three API keys as read from the environment (undefined when unset). */
  datatype Keys = Keys(qwen: Option<string>, stability: Option<string>, openAI: Option<string>)

  /** `key?.trim()` */
  function Trimmed(key: Option<string>): Option<string> {
    match key
    case None => None
    case Some(k) => Some(Trim(k))
  }

  /** A key counts as configured when it is set and not blank. */
  predicate Configured(key: Option<string>) {
    Truthy(Trimmed(key))
  }

  /** Where a request goes: a simulated result, or one provider family. */
  datatype Route = Simulated | Provider(family: Family)

  /** The priority cascade over the trimmed keys. */
  function SelectRoute(keys: Keys): (r: Route)
    ensures r == Simulated <==> !Configured(keys.qwen) && !Configured(keys.stability) && !Configured(keys.openAI)
    ensures r == Provider(QwenFamily) <==> Configured(keys.qwen)
    ensures r == Provider(StabilityFamily) <==> !Configured(keys.qwen) && Configured(keys.stability)
    ensures r == Provider(DalleFamily) <==> !Configured(keys.qwen) && !Configured(keys.stability) && Configured(keys.openAI)
  {
    if !Configured(keys.openAI) && !Configured(keys.stability) && !Configured(keys.qwen) then Simulated
    else if Configured(keys.qwen) then Provider(QwenFamily)
    else if Configured(keys.stability) then Provider(StabilityFamily)
    else Provider(DalleFamily)
  }

  /** A key made only of whitespace is the same as no key. */
  lemma BlankKeyIsUnset(keys: Keys)
    requires keys.qwen.Some?
    requires forall k :: 0 <= k < |keys.qwen.value| ==> IsWhitespace(keys.qwen.value[k])
    ensures SelectRoute(keys) == SelectRoute(keys.(qwen := None))
  {
    TrimAllWhitespace(keys.qwen.value);
  }

  /** The simulated result: a placeholder URL with the URI-encoded scenario
      (`uriEncode` stands for `encodeURIComponent`). */
  function SimulatedResult(scenario: Option<string>, uriEncode: string -> string): (r: EnhanceResult)
    ensures r.ImageResult? && r.imageUrl.Some?
    ensures StartsWith(r.imageUrl.value, PlaceholderBase)
            && r.imageUrl.value[|PlaceholderBase|..] == uriEncode(Str(scenario))
    ensures StartsWith(r.description, ForScenario(scenario))
            && r.description[|ForScenario(scenario)|..] == SimulatedNote
  {
    var url := PlaceholderBase + uriEncode(Str(scenario));
    var description := ForScenario(scenario) + SimulatedNote;
    assert url[..|PlaceholderBase|] == PlaceholderBase;
    assert description[..|ForScenario(scenario)|] == ForScenario(scenario);
    ImageResult(Some(url), description)
  }

  /** What the simulated description adds after the scenario part. */
  const SimulatedNote: string := "生成了房间改造方案（模拟结果）。请配置API密钥以使用真实AI服务。"

  /** `enhanceRoomImage`. Exactly one family is used and it never throws:
      every provider failure is absorbed inside that family. */
  function EnhanceRoomImage(image: ImageBytes, scenario: Option<string>, props: string, step: string,
                            clutterList: string, isRedo: bool, keys: Keys, net: Network,
                            uriEncode: string -> string): (run: Run)
    requires MaxPollAttempts <= |net.taskPolls|
    ensures SelectRoute(keys) == Simulated ==> run.calls == [] && run.result.ImageResult?
    ensures SelectRoute(keys).Provider? ==> run.calls != [] && AllTo(run.calls, SelectRoute(keys).family)
    ensures run.result.AnalysisResult? ==> step == "1" && SelectRoute(keys) == Provider(QwenFamily)
    ensures SelectRoute(keys) == Provider(QwenFamily) && step != "1" ==>
              run.calls[0] == QwenChat(image, EditPrompt(step, clutterList, isRedo, scenario, props),
                                       Some(NegativePrompt(clutterList)))
    ensures SelectRoute(keys) == Simulated ==> run == Run(SimulatedResult(scenario, uriEncode), [])
    ensures SelectRoute(keys) == Provider(QwenFamily) ==>
              run == Qwen.EnhanceWithQwen(image, scenario, props, step, clutterList, isRedo, net)
    ensures SelectRoute(keys) == Provider(StabilityFamily) ==> run == Fallbacks.EnhanceWithStability(image, scenario, net)
    ensures SelectRoute(keys) == Provider(DalleFamily) ==> run == Fallbacks.EnhanceWithDalle(scenario, net)
  {
    match SelectRoute(keys)
    case Simulated => Run(SimulatedResult(scenario, uriEncode), [])
    case Provider(QwenFamily) => Qwen.EnhanceWithQwen(image, scenario, props, step, clutterList, isRedo, net)
    case Provider(StabilityFamily) => Fallbacks.EnhanceWithStability(image, scenario, net)
    case Provider(DalleFamily) => Fallbacks.EnhanceWithDalle(scenario, net)
  }

  /** Outside steps "2" and "3" the redo flag changes nothing in
      `enhanceRoomImage`, neither the result nor the calls. */
  lemma RedoIrrelevant(image: ImageBytes, scenario: Option<string>, props: string, step: string,
                       clutterList: string, keys: Keys, net: Network, uriEncode: string -> string)
    requires MaxPollAttempts <= |net.taskPolls|
    requires step != "2" && step != "3"
    ensures EnhanceRoomImage(image, scenario, props, step, clutterList, true, keys, net, uriEncode)
         == EnhanceRoomImage(image, scenario, props, step, clutterList, false, keys, net, uriEncode)
  {
    RedoOnlyForCleanupSteps(step, clutterList, scenario, props);
    assert Qwen.QwenAttempt(image, scenario, props, step, clutterList, true, net)
        == Qwen.QwenAttempt(image, scenario, props, step, clutterList, false, net);
  }
}
