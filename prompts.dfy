/** Which prompt template each step uses, and the fixed texts the server
    writes itself: generation prompts, descriptions and error messages. */
module Prompts {
  import opened Wrappers
  import opened JsText
  import opened ProviderTypes

  /** The edit prompt of steps 2 to 5: steps "2" and "3" get the redo flag,
      "4" and "5" do not, and any other step falls back to the basic cleanup
      template called without a redo flag. */
  function EditPrompt(step: string, clutterList: string, isRedo: bool,
                      scenario: Option<string>, props: string): (t: Template)
    ensures !t.SceneAnalysis? && !t.NegativePrompt?
    ensures t.clutterList == clutterList
    ensures t.BasicCleanup? && t.isRedo.Some? <==> step == "2"
    ensures t.DeepCleanup? <==> step == "3"
    ensures (t.BasicCleanup? || t.DeepCleanup?) && t.isRedo.Some? ==> t.isRedo == Some(isRedo)
    ensures t.LayoutOptimize? <==> step == "4"
    ensures t.AddProps? <==> step == "5"
    ensures t.AddProps? ==> t.scenario == scenario && t.props == props
    ensures t == BasicCleanup(clutterList, None) <==> step != "2" && step != "3" && step != "4" && step != "5"
  {
    if step == "2" then BasicCleanup(clutterList, Some(isRedo))
    else if step == "3" then DeepCleanup(clutterList, Some(isRedo))
    else if step == "4" then LayoutOptimize(clutterList)
    else if step == "5" then AddProps(scenario, props, clutterList)
    else BasicCleanup(clutterList, None)
  }

  /** Only steps "2" and "3" see the redo flag: for them it changes the
      template call, for every other step the call is the same either way. */
  lemma RedoOnlyForCleanupSteps(step: string, clutterList: string,
                                scenario: Option<string>, props: string)
    ensures (EditPrompt(step, clutterList, true, scenario, props)
             != EditPrompt(step, clutterList, false, scenario, props))
            <==> (step == "2" || step == "3")
  {
  }

  /** `a room designed for ${scenario}, …`: the text-to-image prompt of the
      Wanx, Stability text-to-image and DALL-E calls. */
  function GenerationPrompt(scenario: Option<string>): string {
    "a room designed for " + Str(scenario) + ", professional interior design, high quality, detailed"
  }

  /** The prompt of the Stability image-to-image call. */
  function TransformPrompt(scenario: Option<string>): string {
    "transform this room for " + Str(scenario)
      + ", professional interior design, high quality, detailed, maintain room structure"
  }

  /** `AI根据您的"${scenario}"需求`, the opening of the scenario descriptions. */
  function ForScenario(scenario: Option<string>): string {
    "AI根据您的\"" + Str(scenario) + "\"需求"
  }

  /** The closing words of every Qwen edit description. */
  const QwenEdited: string := "使用通义千问图像编辑生成"
  /** The opening words of the descriptions of steps other than "5". */
  const StepDone: string := "AI已完成"

  /** What a Qwen edit description says before its closing words. */
  function EditHeadline(step: string, scenario: Option<string>): string {
    if step == "2" then StepDone + "基础清理，移除了明显垃圾和杂物，"
    else if step == "3" then StepDone + "深度整理，清理了贴纸、污渍和细节问题，"
    else if step == "4" then StepDone + "布局优化，优化了物品摆放和空间利用，"
    else if step == "5" then ForScenario(scenario) + "添加了专业道具，"
    else StepDone + "基础清理，"
  }

  /** The description of a Qwen edit, chosen by the step alone (and, for step
      "5", the scenario). */
  function EditDescription(step: string, scenario: Option<string>): (d: string)
    ensures |QwenEdited| <= |d| && d[|d| - |QwenEdited|..] == QwenEdited
    ensures step == "5" ==> StartsWith(d, ForScenario(scenario))
    ensures step != "5" ==> StartsWith(d, StepDone)
  {
    var h := EditHeadline(step, scenario);
    assert (h + QwenEdited)[|h|..] == QwenEdited;
    h + QwenEdited
  }

  /** The scenario matters to the edit description of step "5" only. */
  lemma EditDescriptionIgnoresScenario(step: string, a: Option<string>, b: Option<string>)
    requires step != "5"
    ensures EditDescription(step, a) == EditDescription(step, b)
  {
  }

  /** The five descriptions tell the steps apart. */
  lemma EditDescriptionsDistinct(step1: string, step2: string, scenario: Option<string>)
    requires step1 in {"2", "3", "4"} && step2 != step1
    ensures EditDescription(step1, scenario) != EditDescription(step2, scenario)
  {
    if step2 == "5" {
      var d := EditDescription(step2, scenario);
      assert d[2] == '根';
      assert EditDescription(step1, scenario)[2] == '已';
    }
  }

  /** `调用${provider}时出错: ${message}。详细错误请查看服务器控制台。` */
  function ErrorDescription(provider: string, f: Failure): string {
    "调用" + provider + "时出错: " + Reported(f) + "。详细错误请查看服务器控制台。"
  }

  /** The placeholder image base; the simulated result appends the URI-encoded scenario. */
  const PlaceholderBase: string := "https://placehold.co/600x400/4a86e8/ffffff?text="
  const QwenPlaceholder: string := PlaceholderBase + "Error+with+Qwen+API"
  const StabilityPlaceholder: string := PlaceholderBase + "Error+with+Stability+AI"
  const DallePlaceholder: string := PlaceholderBase + "Error+with+DALL-E+API"
}
