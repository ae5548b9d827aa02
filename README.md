# decorate_room: the stage orchestration of `POST /api/enhance-room`

This project models the server side of *decorate_room*, a room-photo
workflow with five stages:

1. scene analysis;
2. basic cleanup;
3. deep cleanup;
4. layout optimisation;
5. prop addition.

Every stage is one request to `POST /api/enhance-room` in `server.js`. The
model covers what that route and the functions it calls do with one
request:

- **Handler** (`handler.dfy`) resolves the image. An uploaded file wins.
  Otherwise `previousImageUrl` is either decoded as a data URL or downloaded.
  The handler then validates the request in a fixed order: load failure,
  missing image, missing scenario for step 5. It runs `enhanceRoomImage`
  with JavaScript's default parameters and shapes the JSON answer by the
  step as sent. `HandleEnhanceRoom` is the imperative route, which reassigns
  the image buffer as the source does. `Respond` is its specification.
- **Enhance** (`enhance.dfy`) chooses exactly one provider family from the
  trimmed API keys, in the order Qwen, Stability, DALL-E. With no key it
  returns a simulated result.
- **Qwen** (`qwen.dfy`) covers `enhanceWithQwen`:
  - step 1 asks for a text analysis;
  - steps 2 to 5 ask for an image edit, with a prompt template chosen by the
    step (`prompts.dfy`) and a negative prompt;
  - a reply is inline, an asynchronous task, or malformed;
  - any error falls back to the Wanx text-to-image model, and then to a
    placeholder that carries the original error.
- **Clutter** (`clutter.dfy`) extracts the clutter list from the step-1
  analysis:
  - three patterns `heading[\s\S]*?(?=【|$)` are tried in priority order;
  - the bracketed heading is deleted from the match;
  - the rest is trimmed.
- **Poller** (`poller.dfy`) models `pollQwenTaskResult`. It is a counted
  loop with early returns. Its `catch` swallows every per-attempt error,
  including the FAILED status, except on the last attempt.
- **Fallbacks** (`fallbacks.dfy`) covers the other two families:
  - Stability image-to-image, then Stability text-to-image, then a
    placeholder;
  - DALL-E generation, then a placeholder.
- **JsText** (`js_text.dfy`) holds the JavaScript string semantics the
  server relies on:
  - truthiness;
  - `${x}` of `undefined`;
  - `trim` with the ECMAScript whitespace set;
  - `indexOf`;
  - global `replace` of a literal;
  - `split(',')[1]`.

Network calls are oracles. A `Network` value holds what each provider
endpoint answers: a reply, or the error `axios` throws. Every run records
the calls it made as a trace of `Call`s. The trace lets the model state:

- which family a request reached;
- which prompt template the edit call used;
- how many times a task was polled.

The prompt generators come from a module that is not part of this model.
Their calls are the constructors of `Template`, so they are compared as
calls rather than as texts.

Some behaviour of `server.js` that a reader might not expect:

- A task reply with status FAILED does not stop the poller. The error it
  throws is caught by the loop's own `catch` and polling goes on. Only on
  the last attempt is it rethrown (`Poller.FirstFoundWins`,
  `Poller.NothingFound`).
- The route checks no prerequisite stage. Any step is accepted once an
  image is available and step 5 has a scenario (`Handler.EveryStepAccepted`).
- `isRedo` reaches only the templates of steps 2 and 3. For every other step
  it changes nothing (`Handler.RedoIgnoredElsewhere`).
- The description of a Stability text-to-image result does not say that
  the image is newly generated. The Wanx and DALL-E descriptions do.
- A data URL is decoded from `split(',')[1]`. That is the text between the
  first and second commas, not all the text after the first comma. A data
  URL without a comma makes the decoder throw, and the request is answered
  "Failed to load previous image".
- A request without `step` runs the scene analysis, because the default of
  `enhanceRoomImage` is '1'. The handler compares the step as sent with '1',
  so it answers with the image-shaped body, and the analysis is lost
  (`Handler.AbsentStepDropsAnalysis`).

## Model

| member | source | states |
|---|---|---|
| JsText.TrimStart | server.js:137-139 | the result is a suffix of the input, does not start with whitespace, and everything removed is whitespace |
| JsText.TrimEnd | server.js:137-139 | the result is a prefix of the input, does not end with whitespace, and everything removed is whitespace |
| JsText.Trim | server.js:324 | the trimmed text is no longer than the input and neither starts nor ends with whitespace |
| JsText.TrimIsInfix | server.js:324 | the trim is a slice `s[i..j]` with only whitespace outside it |
| JsText.TrimAllWhitespace | server.js:137-139 | a string made only of whitespace trims to the empty string |
| JsText.TrimKeepsPrefix | server.js:324 | a prefix with non-whitespace ends survives the trim |
| JsText.TrimUnchanged | server.js:324 | a string with non-whitespace ends is its own trim |
| JsText.IndexFrom | server.js:320-322 | the occurrence found is the leftmost at or after the start, and None means there is none |
| JsText.IndexOf | server.js:320-322 | the leftmost occurrence of the pattern, and None exactly when the pattern occurs nowhere |
| JsText.RemoveAll | server.js:324 | deleting every occurrence never lengthens the text |
| JsText.RemoveAllAbsent | server.js:324 | a text without the pattern's first character is unchanged by the deletion |
| JsText.OccursInside | server.js:320-322 | an occurrence of a heading carries along every infix of it |
| JsText.CharIndex | server.js:65 | the first index of a character, and None exactly when it does not occur |
| JsText.SecondField | server.js:65 | `split(sep)[1]` is undefined exactly when the separator is absent; otherwise it is the text right after the first separator, up to the second one or the end of the text, and holds no separator |
| Clutter.SectionEnd | server.js:320-322 | the lazy match stops at the first opening bracket at or after its start, or at the end of the text |
| Clutter.MatchSection | server.js:320-322 | no match exactly when the heading does not occur; a match is the text from the leftmost occurrence of the heading to the next opening bracket after it, or the end |
| Clutter.FirstSection | server.js:320-322 | the bracketed heading's match when it occurs; otherwise the bare heading's; otherwise the keyword's |
| Clutter.ExtractClutterList | server.js:316-327 | an empty analysis gives an empty list, and a list never starts or ends with whitespace (its value per heading: FullLabelSection, BareLabelSection, KeywordLabelSection) |
| Clutter.SectionItems | server.js:324 | a section with the bracketed heading deleted, trimmed, has no whitespace at either end; a section without any opening bracket is just trimmed |
| Clutter.FullLabelSection | server.js:320-324 | with the bracketed heading present, the list is the trimmed text from its leftmost occurrence up to the next opening bracket |
| Clutter.BracketedSection | server.js:320-324 | deleting a bracket-opened heading from its section leaves exactly the section's body |
| Clutter.BareLabelSection | server.js:321-324 | without the bracketed heading, the list is the trimmed text from the leftmost bare heading, heading included, to the next opening bracket |
| Clutter.KeywordLabelSection | server.js:322-324 | without either heading, the list is the trimmed text from the leftmost keyword, keyword included, to the next opening bracket |
| Clutter.BracketFreeSection | server.js:320-324 | a bracket-free heading's match is its section, and deleting the bracketed heading from it changes nothing |
| Clutter.BareLabelKept | server.js:321-324 | without the bracketed heading, a bare heading is matched and kept at the start of the list |
| Clutter.KeywordLabelKept | server.js:322-324 | without either heading, the keyword is matched and kept at the start of the list |
| Clutter.LabelKept | server.js:324 | a section opened by a bracket-free heading still starts with it after deletion and trim |
| Clutter.PrefixSurvives | server.js:324 | deletion and trim keep a prefix that cannot start an occurrence of the pattern |
| Clutter.NoKeywordNoList | server.js:320-327 | an analysis without the keyword matches no pattern and yields the empty list, never an error |
| Clutter.SectionToEnd | server.js:320 | a section without a further opening bracket runs to the end of the text (`$`) |
| Clutter.SingleSection | server.js:316-327 | a bracketed heading followed by a bracket-free list with non-whitespace ends yields exactly that list |
| Clutter.ExampleBottlesAndCups | server.js:316-327 | the bracketed heading followed by "bottles, cups" yields "bottles, cups" |
| Poller.Inspect | server.js:551-559 | SUCCEEDED gives the first result's image as a PNG data URL, else its url, else keeps polling; FAILED raises "任务执行失败"; a request error raises that error; anything else keeps polling |
| Poller.PollFrom | server.js:541-565 | polling from attempt i makes between i and the maximum number of polls; a result is the image of the last attempt made, no earlier attempt found one; an error comes only after all attempts |
| Poller.PollTask | server.js:541-565 | at most the maximum number of polls; a result is the image of the first attempt that finds one, after exactly that many polls; an error comes only after all attempts |
| Poller.PollTaskResult | server.js:538-566 | the loop's outcome and poll count equal the specification's; a result is the image of the last attempt made; an error comes only after all attempts |
| Poller.FirstFoundWins | server.js:541-562 | the first attempt that finds an image decides the result, after exactly that many polls, whatever failed before it |
| Poller.NothingFound | server.js:541-565 | without any image, all attempts are made; the last attempt's error is rethrown, otherwise the timeout error |
| Poller.ThirdOfFive | server.js:538-566 | a task that succeeds on its third poll out of five is polled three times and yields its url |
| Poller.NeverTerminal | server.js:541-565 | a task never terminal within three polls times out after exactly three |
| Prompts.EditPrompt | server.js:337-366 | step 2 gives basic cleanup with the redo flag, step 3 deep cleanup with it, step 4 layout optimisation, step 5 prop addition with the scenario and props, and every other step basic cleanup without a redo flag; the clutter list reaches every template |
| Prompts.RedoOnlyForCleanupSteps | server.js:338-366 | the redo flag changes the template call exactly for steps 2 and 3 |
| Prompts.EditDescription | server.js:494-505 | every edit description ends with "使用通义千问图像编辑生成"; step 5's opens with the scenario part, the others with "AI已完成" |
| Prompts.EditDescriptionIgnoresScenario | server.js:494-505 | the edit description depends on the scenario only for step 5 |
| Prompts.EditDescriptionsDistinct | server.js:494-505 | the descriptions of steps 2, 3 and 4 differ from that of any other step |
| Qwen.FirstText | server.js:309-312 | the text of the first item with a non-empty text, or "" exactly when there is none |
| Qwen.FirstImage | server.js:473 | the image of the first item with a non-empty image, or undefined exactly when there is none |
| Qwen.AnalysisText | server.js:305-314 | reading the analysis fails, with a TypeError on `message`, exactly when `choices` is an empty array; otherwise it is the first text of the first choice's content, or "" without `choices` or content |
| Qwen.AnalysisOutcome | server.js:329-333 | a non-empty text is returned with its clutter list; an empty one reads "场景分析完成" with an empty list |
| Qwen.ImageReference | server.js:474-481 | a value starting with "http" is the reference itself; any other value gets the PNG data-URL prefix |
| Qwen.ClassifyEditReply | server.js:468-491 | `choices` are read before `task_id`: non-empty `choices` give an inline reply whose image is undefined exactly when the first choice has no image item, and otherwise is the reference of the first image; empty `choices` a TypeError; a task id a deferred task; anything else the malformed-reply error |
| Qwen.WanxImage | server.js:594-595 | the url when it is non-empty, otherwise the PNG data-URL prefix followed by the printed base64 field |
| Qwen.WanxFallback | server.js:523-533 | a Wanx reply gives its image with the scenario's Wanx description; when Wanx fails too, the Qwen placeholder is described with the original error |
| Qwen.QwenAttempt | server.js:258-507 | step 1 makes the one analysis call and yields the analysis outcome of its text, or the request error, or the TypeError of empty `choices`; other steps first make the edit call with the step's template and the negative prompt; a request error or a malformed reply is an error after that one call; an inline reply is the step's image result after that one call |
| Qwen.EnhanceWithQwen | server.js:237-535 | the attempt's result when it succeeds; on its error, the Wanx fallback after one more call with the generation prompt; every call goes to the Qwen family and the first is the step's |
| Qwen.AnalysisReplyUsed | server.js:305-333 | any analysis reply whose text is non-empty yields that text and its clutter list, after one call and no fallback |
| Qwen.EditOutageAnswered | server.js:523-533 | when the edit call and Wanx both fail, the answer is the Qwen placeholder described with the edit call's error |
| Qwen.ChoicesWithoutImage | server.js:468-483 | an edit reply whose first choice holds no image is answered with an undefined image URL and the step's description, after one call and no fallback |
| Qwen.DeferredAttempt | server.js:484-487 | a task reply makes the edit call, then one status call per poll, and takes the poller's image or error |
| Qwen.DeferredTaskPolled | server.js:484-533 | a polled task's image is the result with the step's description; a poller error leads to the Wanx fallback, which is the last call |
| Fallbacks.ArtifactImage | server.js:637 | the image is read exactly when `artifacts` is present and non-empty, and is the PNG data URL of its first entry |
| Fallbacks.EnhanceWithStability | server.js:603-700 | the image-to-image call comes first, and its image is the result with the edit description; the text-to-image call, with the generation prompt, is made exactly when it fails, and its image comes with the generation description; both failing give the placeholder with the image-to-image error |
| Fallbacks.DalleImage | server.js:215 | the image is read exactly when `data` is present and non-empty, and is its first entry's url |
| Fallbacks.EnhanceWithDalle | server.js:197-234 | exactly one generation call; its url with the DALL-E description on success; the placeholder on a request error or on a reply without `data[0]`, described with that error |
| Enhance.SelectRoute | server.js:155-193 | simulated exactly when no trimmed key is set; Qwen exactly when its key is set; Stability and DALL-E only when every key before them is unset |
| Enhance.BlankKeyIsUnset | server.js:137-167 | a Qwen key made only of whitespace routes the same as no key |
| Enhance.SimulatedResult | server.js:155-161 | the placeholder base followed by the URI-encoded scenario, described by the scenario part and the simulated-result note |
| Enhance.EnhanceRoomImage | server.js:126-194 | the selected route decides the run: the simulated result with no call, or exactly the run of the Qwen, Stability or DALL-E function; only Qwen on step 1 yields an analysis |
| Enhance.RedoIrrelevant | server.js:338-366 | outside steps 2 and 3 the redo flag changes neither the result nor the calls |
| Handler.LoadImage | server.js:58-78 | the upload wins; a data URL is decoded from its second comma-separated field without a download, and fails exactly without a comma; any other URL is downloaded once, fails exactly when the download fails, and otherwise is the downloaded bytes |
| Handler.IsRedo | server.js:94 | the redo field is true only as the text "true" or the boolean true |
| Handler.Shape | server.js:96-111 | step "1" as sent gets the analysis body, with the analysis and the clutter list of an analysis result, or neither for an image result; any other step gets the image body with the result's image URL; the description is always the result's |
| Handler.Respond | server.js:58-111 | the answer is "Failed to load previous image" exactly when loading failed; a 400 exactly when there is no image or step 5 has no scenario, with no provider call; otherwise the body is the analysis one exactly for step "1" |
| Handler.Accepted | server.js:80-111 | an accepted request is answered with the shaped stage result, after the download calls |
| Handler.HandleEnhanceRoom | server.js:49-111 | the route's answer and network calls are those of the specification `Respond` |
| Handler.UploadWins | server.js:58-61 | with an uploaded file, `previousImageUrl` changes nothing |
| Handler.MissingImageFirst | server.js:80-82 | without an image the answer is "Missing image", with no call, whatever the step and the scenario |
| Handler.Step5NeedsScenario | server.js:84-87 | step 5 without a scenario is refused before any provider call |
| Handler.EveryStepAccepted | server.js:80-111 | with an image, and a scenario for step 5, no request is refused, and the body is the analysis one exactly for step "1" |
| Handler.RedoIgnoredElsewhere | server.js:94 | outside steps 2 and 3 the `isRedo` field changes neither the answer nor the calls |
| Handler.RedoReachesBasicCleanup | server.js:94 | on step 2 with Qwen, an edit call carries the clutter list and the redo flag coerced from "true" or `true` |
| Handler.AbsentStepDropsAnalysis | server.js:94-111 | without a step, any readable analysis reply is answered with the image body, no image URL and the analysis description |
| Handler.StepOneReturnsClutterList | server.js:94-103 | on step 1, an analysis text with the bracketed heading is answered with that text and the trimmed section after the leftmost heading as the clutter list |
| Handler.QwenOutageAnswered | server.js:523-533 | when the Qwen edit and Wanx both fail, an accepted edit step is still answered with the Qwen placeholder and the edit error |

## Left out

- HTTP transport is not modelled. That covers multer's upload parsing,
  Express static files, `GET /api/status`, `app.listen`, status codes other
  than 400, and the `success: true` field. A `BadRequest` answer stands for
  a 400.
- Each provider call is an oracle value in `Network`. The model does not
  cover:
  - request bodies and headers (model names, sizes, `cfg_scale`,
    `image_strength`, `watermark`, `Authorization`);
  - the endpoint URLs, `QWEN_API_URL` included;
  - the 60-second timeout;
  - `validateStatus`.
  Whether a status becomes a reply or an error is folded into the oracle's
  `Result`.
- Poll replies do not depend on the task id. The oracle supplies one reply
  per poll, at least `MaxPollAttempts` of them, which is why
  `PollTaskResult` requires that many. The two-second pause between polls
  is left out.
- Logging is left out: `console` output and `writeLog`.
- Environment reading is left out: the keys arrive as a `Keys` value.
- The check that throws when `QWEN_MODEL` is unset (server.js:248-250) is
  left out. It cannot fire, because the model name has a default.
- Base64 encoding of the image buffer is opaque. Base64 decoding is the
  symbolic `Base64Decoded(text)`. `encodeURIComponent` is the parameter
  `uriEncode`.
- The prompt-template module is not part of this model. Its generators
  appear as `Template` constructors.
- JSON values are modelled as strings or undefined. A reply field of
  another type (a number where a string is expected, for instance) is not
  modelled, so neither are the TypeErrors it would raise.
- The 500 answer of the route's outer `catch` (server.js:113-122) is left
  out. Nothing on the modelled path throws out of `enhanceRoomImage`.
- The `i` flag of the three patterns and of the replacement is left out. It
  changes nothing for headings without letter case.
- `app.js`, the browser client, is not part of this model.
- JsText.RemoveAll: its contract only bounds the length. What it deletes is
  stated through RemoveAllAbsent and the Clutter lemmas, which are the uses
  the server makes of it.
