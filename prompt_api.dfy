/**
 * The Chrome Prompt API integration: availability probes, session creation
 * with merged options, image description with its error mapping, the
 * text-only fallback description, alt text and multi-image analysis. Every
 * operation that succeeds destroys the session it created.
 */
module PromptApi {
  import opened Wrappers
  import opened Strings
  import opened Host

  const NoPromptOptions := PromptOptions(None, None, None, None, None)
  const EnglishTextOutput := [ExpectedOutput(Some(["en"]))]

  /** `checkPromptApiAvailability(options)`: `'unavailable'` when the global is absent or the probe throws. */
  function CheckPromptApiAvailability(h: LanguageModelHost, o: PromptOptions): (r: Traced<Availability>)
    ensures r.value == Unavailable <==> !h.present || h.availability(o).Err? || h.availability(o) == Ok(Unavailable)
    ensures r.value != Unavailable ==> h.present && h.availability(o) == Ok(r.value)
    ensures r.calls == if h.present then [ModelAvailabilityCall(o)] else []
    ensures ModelOnly(r.calls)
  {
    if !h.present then Traced(Unavailable, [])
    else match h.availability(o)
      case Ok(a) => Traced(a, [ModelAvailabilityCall(o)])
      case Err(_) => Traced(Unavailable, [ModelAvailabilityCall(o)])
  }

  /** The question `checkMultimodalAvailability` asks: image and text in, English text out. */
  const MultimodalQuery := NoPromptOptions.(
    expectedInputs := Some([ExpectedInput(ImageInput, None), ExpectedInput(TextInput, None)]),
    expectedOutputs := Some(EnglishTextOutput))

  /** `checkMultimodalAvailability()`: the probe for image input. */
  function CheckMultimodalAvailability(h: LanguageModelHost): (r: Traced<Availability>)
    ensures r.value == Unavailable <==>
      !h.present || h.availability(MultimodalQuery).Err? || h.availability(MultimodalQuery) == Ok(Unavailable)
    ensures r.calls == if h.present then [ModelAvailabilityCall(MultimodalQuery)] else []
    ensures ModelOnly(r.calls)
  {
    CheckPromptApiAvailability(h, MultimodalQuery)
  }

  // ----------------------------------------------------- session options

  /** The first stage: `temperature: options.temperature || params.defaultTemperature` and so on. */
  function DefaultedOptions(o: PromptOptions, p: ModelParams): SessionOptions {
    SessionOptions(
      if o.temperature.Some? && o.temperature.value != 0.0 then o.temperature.value else p.defaultTemperature,
      if o.topK.Some? && o.topK.value != 0 then o.topK.value else p.defaultTopK,
      None,
      o.expectedInputs.GetOr([ExpectedInput(TextInput, None)]),
      o.expectedOutputs.GetOr([ExpectedOutput(None)]),
      false)
  }

  /** The second stage: `...options` replaces every field the caller gave, then the monitor is attached when asked for. */
  function SpreadCallerOptions(base: SessionOptions, o: PromptOptions, monitor: bool): SessionOptions {
    SessionOptions(
      o.temperature.GetOr(base.temperature),
      o.topK.GetOr(base.topK),
      if o.initialPrompts.Some? then o.initialPrompts else base.initialPrompts,
      o.expectedInputs.GetOr(base.expectedInputs),
      o.expectedOutputs.GetOr(base.expectedOutputs),
      monitor)
  }

  function SessionOptionsFor(o: PromptOptions, p: ModelParams, monitor: bool): SessionOptions {
    SpreadCallerOptions(DefaultedOptions(o, p), o, monitor)
  }

  /**
   * The net effect of the two stages: every field the caller gave is used
   * as given (an explicit temperature or topK of 0 included, because the
   * spread comes after the `||` defaults), every other field takes the
   * model's default or a single text entry.
   */
  lemma SessionOptionsMerge(o: PromptOptions, p: ModelParams, monitor: bool)
    ensures var s := SessionOptionsFor(o, p, monitor);
      && s.temperature == (if o.temperature.Some? then o.temperature.value else p.defaultTemperature)
      && s.topK == (if o.topK.Some? then o.topK.value else p.defaultTopK)
      && s.initialPrompts == o.initialPrompts
      && s.expectedInputs == (if o.expectedInputs.Some? then o.expectedInputs.value else [ExpectedInput(TextInput, None)])
      && s.expectedOutputs == (if o.expectedOutputs.Some? then o.expectedOutputs.value else [ExpectedOutput(None)])
      && s.monitor == monitor
  {
  }

  predicate IsModelCreate(c: Call) { c.ModelCreateCall? }
  predicate IsModelParams(c: Call) { c.ModelParamsCall? }
  predicate IsModelDestroy(c: Call) { c.ModelDestroyCall? }
  predicate IsModelAppend(c: Call) { c.ModelAppendCall? }

  /** How the four session counts grow when one call is added. */
  lemma CountCallsAppend(calls: seq<Call>, c: Call)
    ensures Count(calls + [c], IsModelParams) == Count(calls, IsModelParams) + (if c.ModelParamsCall? then 1 else 0)
    ensures Count(calls + [c], IsModelCreate) == Count(calls, IsModelCreate) + (if c.ModelCreateCall? then 1 else 0)
    ensures Count(calls + [c], IsModelDestroy) == Count(calls, IsModelDestroy) + (if c.ModelDestroyCall? then 1 else 0)
    ensures Count(calls + [c], IsModelAppend) == Count(calls, IsModelAppend) + (if c.ModelAppendCall? then 1 else 0)
  {
    CountAppend(calls, [c], IsModelParams);
    CountAppend(calls, [c], IsModelCreate);
    CountAppend(calls, [c], IsModelDestroy);
    CountAppend(calls, [c], IsModelAppend);
    CountOne(c, IsModelParams);
    CountOne(c, IsModelCreate);
    CountOne(c, IsModelDestroy);
    CountOne(c, IsModelAppend);
  }

  /**
   * `createPromptSession(options, onProgress)`: whether a session is
   * returned (`false` for `null`). It never throws and never retries: at
   * most one `create`, made only after the probe and a fresh `params()`.
   */
  function CreatePromptSession(h: LanguageModelHost, o: PromptOptions, withProgress: bool): (r: Traced<bool>)
    ensures var reached := h.present && CheckPromptApiAvailability(h, o).value != Unavailable;
      && Count(r.calls, IsModelParams) == (if reached then 1 else 0)
      && Count(r.calls, IsModelCreate) == (if reached && h.params.Ok? then 1 else 0)
      && (r.value <==> reached && h.params.Ok? && h.create(SessionOptionsFor(o, h.params.value, withProgress)))
    ensures Count(r.calls, IsModelDestroy) == 0 && Count(r.calls, IsModelAppend) == 0
    ensures r.value ==> r.calls[|r.calls| - 1] == ModelCreateCall(SessionOptionsFor(o, h.params.value, withProgress))
    ensures ModelOnly(r.calls)
  {
    if !h.present then Traced(false, [])
    else
      var a := CheckPromptApiAvailability(h, o);
      if a.value == Unavailable then Traced(false, a.calls)
      else
        var asked := a.calls + [ModelParamsCall];
        CountOne(ModelAvailabilityCall(o), IsModelParams);
        CountOne(ModelAvailabilityCall(o), IsModelCreate);
        CountOne(ModelAvailabilityCall(o), IsModelDestroy);
        CountOne(ModelAvailabilityCall(o), IsModelAppend);
        CountCallsAppend(a.calls, ModelParamsCall);
        match h.params
        case Err(_) => Traced(false, asked)
        case Ok(p) =>
          var so := SessionOptionsFor(o, p, withProgress);
          CountCallsAppend(asked, ModelCreateCall(so));
          Traced(h.create(so), asked + [ModelCreateCall(so)])
  }

  // ------------------------------------------------------ describe image

  const ImageUnavailableMessage := "Chrome Prompt API with image support is not available. This feature requires Chrome with experimental AI features enabled or Chrome Canary/Dev channel."
  const ImageSessionFailedMessage := "Failed to create Prompt API session for image description"
  const DefaultImagePrompt := "Please describe this image in detail, including what you see, the setting, colors, and any notable elements or text."
  const ImageSystemPrompt := "You are a helpful assistant that provides detailed, accurate descriptions of images. Focus on the main elements, colors, composition, and any text or important details visible in the image."
  const UnsupportedMessage := "Multimodal image description is not supported in this Chrome version. Please use Chrome Canary/Dev with experimental features enabled, or wait for this feature to be available in Chrome Stable."
  const RateLimitMessage := "Rate limit reached for AI features. Please wait a moment and try again."
  const ImageFailurePrefix := "Image description failed: "

  const ImageSessionQuery := NoPromptOptions.(
    initialPrompts := Some([InitialPrompt(SystemRole, ImageSystemPrompt)]),
    expectedInputs := Some([ExpectedInput(ImageInput, None), ExpectedInput(TextInput, None)]),
    expectedOutputs := Some(EnglishTextOutput))

  /** The catch block of `describeImage`: two families of errors get fixed texts, every other one a prefix. */
  function ImageErrorMessage(m: string): (r: string)
    ensures Contains(m, "NotSupportedError") || Contains(m, "not supported") ==> r == UnsupportedMessage
    ensures !(Contains(m, "NotSupportedError") || Contains(m, "not supported")) && (Contains(m, "quota") || Contains(m, "rate limit"))
      ==> r == RateLimitMessage
    ensures r != UnsupportedMessage && r != RateLimitMessage ==> r == ImageFailurePrefix + m
  {
    if Contains(m, "NotSupportedError") || Contains(m, "not supported") then UnsupportedMessage
    else if Contains(m, "quota") || Contains(m, "rate limit") then RateLimitMessage
    else ImageFailurePrefix + m
  }

  /** The one message `describeImage` sends: the instruction, then the image. */
  function ImagePromptInput(instruction: string, image: ImageFile): PromptInput {
    MessagePrompt([PromptMessage(UserRole, [TextPart(instruction), ImagePart(image)])])
  }

  /** The part of `describeImage` after the session exists: ask, destroy on success, map a failure to its message. */
  function AskForDescription(h: LanguageModelHost, input: PromptInput, created: seq<Call>): (r: Traced<Result<string>>)
    requires Count(created, IsModelDestroy) == 0
    ensures r.value.Ok? <==> h.prompt(input).Ok?
    ensures r.value.Ok? ==> r.value == h.prompt(input)
    ensures r.value.Err? ==> r.value.msg == ImageErrorMessage(h.prompt(input).msg)
    ensures Count(r.calls, IsModelDestroy) == if r.value.Ok? then 1 else 0
    ensures ModelOnly(created) ==> ModelOnly(r.calls)
  {
    var asked := created + [ModelPromptCall(input)];
    CountCallsAppend(created, ModelPromptCall(input));
    match h.prompt(input)
    case Ok(d) =>
      CountCallsAppend(asked, ModelDestroyCall);
      Traced(Ok(d), asked + [ModelDestroyCall])
    case Err(m) => Traced(Err(ImageErrorMessage(m)), asked)
  }

  /**
   * `describeImage(imageFile, customPrompt, onProgress)`. When the multimodal
   * probe says `'unavailable'` no session is ever created; `'downloading'`
   * and the other answers go on.
   */
  function DescribeImage(h: LanguageModelHost, image: ImageFile, customPrompt: Option<string>, withProgress: bool)
    : (r: Traced<Result<string>>)
    ensures CheckMultimodalAvailability(h).value == Unavailable ==>
      r.value == Err(ImageErrorMessage(ImageUnavailableMessage)) && Count(r.calls, IsModelCreate) == 0
    ensures r.value.Ok? <==>
      && CheckMultimodalAvailability(h).value != Unavailable
      && CreatePromptSession(h, ImageSessionQuery, withProgress).value
      && h.prompt(ImagePromptInput(Or(customPrompt, DefaultImagePrompt), image)).Ok?
    ensures r.value.Ok? ==> r.value == h.prompt(ImagePromptInput(Or(customPrompt, DefaultImagePrompt), image))
    ensures r.value.Err? ==> exists m :: r.value.msg == ImageErrorMessage(m)
    ensures Count(r.calls, IsModelDestroy) == if r.value.Ok? then 1 else 0
    ensures ModelOnly(r.calls)
  {
    var a := CheckMultimodalAvailability(h);
    if a.value == Unavailable then
      Traced(Err(ImageErrorMessage(ImageUnavailableMessage)), a.calls)
    else
      var s := CreatePromptSession(h, ImageSessionQuery, withProgress);
      var created := a.calls + s.calls;
      CountAppend(a.calls, s.calls, IsModelDestroy);
      if !s.value then
        Traced(Err(ImageErrorMessage(ImageSessionFailedMessage)), created)
      else
        AskForDescription(h, ImagePromptInput(Or(customPrompt, DefaultImagePrompt), image), created)
  }

  // --------------------------------------------------- fallback description

  const TextOnlyQuery := NoPromptOptions.(
    expectedInputs := Some([ExpectedInput(TextInput, None)]),
    expectedOutputs := Some(EnglishTextOutput))
  const FallbackPrefix := "Fallback description failed: "
  const AnalysisHeader := "**Image Analysis (Context-based)**\n\n"
  const AnalysisNote := "\n\n*Note: This description is based on context clues since direct image analysis requires Chrome with experimental AI features enabled.*"

  /** `imageUrl.split('.').pop()?.toLowerCase() || 'unknown'`. */
  function ImageExtension(url: string): (r: string)
    ensures r != [] && '.' !in r
    ensures url != [] && '.' !in url ==> r == Lower(url)
    ensures url != [] && url[|url| - 1] == '.' ==> r == "unknown"
    ensures forall i :: 0 <= i < |url| - 1 && url[i] == '.' && '.' !in url[i + 1..] ==> r == Lower(url[i + 1..])
  {
    var e := Lower(AfterLast(url, '.'));
    assert '.' !in url ==> AfterLast(url, '.') == url by {
      if '.' !in url { AfterLastWithoutSep(url, '.'); }
    }
    assert forall i :: 0 <= i < |e| ==> e[i] != '.' by {
      forall i | 0 <= i < |e| ensures e[i] != '.' {
        assert AfterLast(url, '.')[i] in AfterLast(url, '.');
      }
    }
    assert forall i :: 0 <= i < |url| - 1 && url[i] == '.' && '.' !in url[i + 1..] ==> AfterLast(url, '.') == url[i + 1..] by {
      forall i | 0 <= i < |url| - 1 && url[i] == '.' && '.' !in url[i + 1..] ensures AfterLast(url, '.') == url[i + 1..] {
        AfterLastAt(url, '.', i);
      }
    }
    if e == "" then "unknown" else e
  }

  /** `imageUrl.split('/').pop() || 'image'`. */
  function ImageName(url: string): (r: string)
    ensures r != [] && '/' !in r
    ensures url != [] && '/' !in url ==> r == url
    ensures url != [] && url[|url| - 1] == '/' ==> r == "image"
    ensures forall i :: 0 <= i < |url| - 1 && url[i] == '/' && '/' !in url[i + 1..] ==> r == url[i + 1..]
  {
    var n := AfterLast(url, '/');
    assert '/' !in url ==> AfterLast(url, '/') == url by {
      if '/' !in url { AfterLastWithoutSep(url, '/'); }
    }
    assert forall i :: 0 <= i < |url| - 1 && url[i] == '/' && '/' !in url[i + 1..] ==> n == url[i + 1..] by {
      forall i | 0 <= i < |url| - 1 && url[i] == '/' && '/' !in url[i + 1..] ensures n == url[i + 1..] {
        AfterLastAt(url, '/', i);
      }
    }
    if n == "" then "image" else n
  }

  /** `pageUrl ? new URL(pageUrl).hostname : 'unknown site'`; the URL parser may throw. */
  function SiteOf(hostname: string -> Result<string>, pageUrl: Option<string>): (r: Result<string>)
    ensures !Truthy(pageUrl) ==> r == Ok("unknown site")
    ensures Truthy(pageUrl) ==> r == hostname(pageUrl.value)
  {
    if Truthy(pageUrl) then hostname(pageUrl.value) else Ok("unknown site")
  }

  const FallbackOpening := "I found an image on a webpage but cannot directly analyze it. Here's what I know:\n\nImage URL: "
  const FallbackClosing := "\n\nBased on this context and the source website, please provide:\n1. What this image might contain based on the page context\n2. The likely purpose of this image on this type of website\n3. General characteristics common to images in this context\n4. Suggestions for what the user might want to know about this image\n\nPlease be helpful while acknowledging that I cannot directly see the image content."

  function FallbackPrompt(imageUrl: string, name: string, extension: string, pageTitle: Option<string>, site: string): string {
    FallbackOpening + imageUrl
    + "\nImage file: " + name
    + "\nFile type: " + extension
    + "\nSource page: " + Or(pageTitle, "Unknown page")
    + "\nWebsite: " + site
    + FallbackClosing
  }

  /** The question `describeFallback` asks, from what the URL and the page say. */
  function FallbackQuestion(imageUrl: string, pageTitle: Option<string>, site: string): PromptInput {
    PlainPrompt(FallbackPrompt(imageUrl, ImageName(imageUrl), ImageExtension(imageUrl), pageTitle, site))
  }

  /** The part of `describeFallback` after the session exists and the site is known: ask, destroy, wrap. */
  function AskForFallback(h: LanguageModelHost, question: PromptInput, created: seq<Call>): (r: Traced<Result<string>>)
    requires Count(created, IsModelDestroy) == 0
    ensures r.value.Err? ==> StartsWith(r.value.msg, FallbackPrefix)
    ensures r.value.Ok? <==> h.prompt(question).Ok?
    ensures r.value.Ok? ==> r.value.value == AnalysisHeader + h.prompt(question).value + AnalysisNote
    ensures Count(r.calls, IsModelDestroy) == if r.value.Ok? then 1 else 0
    ensures ModelOnly(created) ==> ModelOnly(r.calls)
  {
    var asked := created + [ModelPromptCall(question)];
    CountCallsAppend(created, ModelPromptCall(question));
    match h.prompt(question)
    case Ok(d) =>
      CountCallsAppend(asked, ModelDestroyCall);
      Traced(Ok(AnalysisHeader + d + AnalysisNote), asked + [ModelDestroyCall])
    case Err(m) => Traced(Err(FallbackPrefix + m), asked)
  }

  /**
   * `describeFallback(imageUrl, pageTitle, pageUrl)`: a text-only session
   * asked about what the URL and the page say; the answer is wrapped in the
   * context-based header and note, and every failure is rethrown with a prefix.
   */
  function DescribeFallback(h: LanguageModelHost, hostname: string -> Result<string>,
                            imageUrl: string, pageTitle: Option<string>, pageUrl: Option<string>)
    : (r: Traced<Result<string>>)
    ensures r.value.Err? ==> StartsWith(r.value.msg, FallbackPrefix)
    ensures r.value.Ok? <==>
      && CheckPromptApiAvailability(h, TextOnlyQuery).value != Unavailable
      && CreatePromptSession(h, TextOnlyQuery, false).value
      && SiteOf(hostname, pageUrl).Ok?
      && h.prompt(FallbackQuestion(imageUrl, pageTitle, SiteOf(hostname, pageUrl).value)).Ok?
    ensures r.value.Ok? ==>
      && SiteOf(hostname, pageUrl).Ok?
      && h.prompt(FallbackQuestion(imageUrl, pageTitle, SiteOf(hostname, pageUrl).value)).Ok?
      && r.value.value == AnalysisHeader + h.prompt(FallbackQuestion(imageUrl, pageTitle, SiteOf(hostname, pageUrl).value)).value + AnalysisNote
    ensures CheckPromptApiAvailability(h, TextOnlyQuery).value == Unavailable ==>
      r.value == Err(FallbackPrefix + "Chrome Prompt API is not available") && Count(r.calls, IsModelCreate) == 0
    ensures Count(r.calls, IsModelDestroy) == if r.value.Ok? then 1 else 0
    ensures ModelOnly(r.calls)
  {
    var a := CheckPromptApiAvailability(h, TextOnlyQuery);
    CountOne(ModelAvailabilityCall(TextOnlyQuery), IsModelCreate);
    if a.value == Unavailable then
      Traced(Err(FallbackPrefix + "Chrome Prompt API is not available"), a.calls)
    else
      var s := CreatePromptSession(h, TextOnlyQuery, false);
      var created := a.calls + s.calls;
      CountAppend(a.calls, s.calls, IsModelDestroy);
      if !s.value then
        Traced(Err(FallbackPrefix + "Failed to create text-only Prompt API session"), created)
      else
        match SiteOf(hostname, pageUrl)
        case Err(m) => Traced(Err(FallbackPrefix + m), created)
        case Ok(site) => AskForFallback(h, FallbackQuestion(imageUrl, pageTitle, site), created)
  }

  // ----------------------------------------------------------- alt text

  const AltFailurePrefix := "Alt text generation failed: "
  const AltSystemPrompt := "You are an accessibility expert. Generate concise, descriptive alt text for images that would be helpful for screen readers. Focus on the essential visual information in 1-2 sentences."
  const AltInstruction := "Generate concise alt text for this image suitable for screen readers. Keep it brief but descriptive."
  const AltSessionQuery := NoPromptOptions.(
    initialPrompts := Some([InitialPrompt(SystemRole, AltSystemPrompt)]),
    expectedInputs := Some([ExpectedInput(ImageInput, None)]),
    expectedOutputs := Some(EnglishTextOutput))

  /** `generateAltText(imageFile, onProgress)`. */
  function GenerateAltText(h: LanguageModelHost, image: ImageFile, withProgress: bool): (r: Traced<Result<string>>)
    ensures r.value.Ok? <==>
      CreatePromptSession(h, AltSessionQuery, withProgress).value && h.prompt(ImagePromptInput(AltInstruction, image)).Ok?
    ensures r.value.Ok? ==> r.value == h.prompt(ImagePromptInput(AltInstruction, image))
    ensures r.value.Err? ==> StartsWith(r.value.msg, AltFailurePrefix)
    ensures Count(r.calls, IsModelDestroy) == if r.value.Ok? then 1 else 0
  {
    var s := CreatePromptSession(h, AltSessionQuery, withProgress);
    if !s.value then
      Traced(Err(AltFailurePrefix + "Failed to create Prompt API session for alt text generation"), s.calls)
    else
      var input := ImagePromptInput(AltInstruction, image);
      var asked := s.calls + [ModelPromptCall(input)];
      CountAppend(s.calls, [ModelPromptCall(input)], IsModelDestroy);
      match h.prompt(input)
      case Ok(t) =>
        CountAppend(asked, [ModelDestroyCall], IsModelDestroy);
        Traced(Ok(t), asked + [ModelDestroyCall])
      case Err(m) => Traced(Err(AltFailurePrefix + m), asked)
  }

  // --------------------------------------------------- multi-image analysis

  const MultiFailurePrefix := "Multi-image analysis failed: "
  const MultiSystemPrompt := "You are a skilled analyst who correlates patterns across multiple images. Provide detailed analysis comparing and contrasting the images."
  const MultiSessionQuery := NoPromptOptions.(
    initialPrompts := Some([InitialPrompt(SystemRole, MultiSystemPrompt)]),
    expectedInputs := Some([ExpectedInput(ImageInput, None), ExpectedInput(TextInput, None)]),
    expectedOutputs := Some(EnglishTextOutput))

  /** `Image ${i + 1} of ${n}:`. */
  function ImageLabel(i: nat, n: nat): string {
    "Image " + NatToString(i + 1) + " of " + NatToString(n) + ":"
  }

  /** What the loop appends for the image at position `i` of `n`. */
  function ImageTurn(i: nat, n: nat, image: ImageFile): seq<PromptMessage> {
    [PromptMessage(UserRole, [TextPart(ImageLabel(i, n)), ImagePart(image)])]
  }

  /** The argument of every `append` in `calls`, in order. */
  function Appended(calls: seq<Call>): seq<seq<PromptMessage>> {
    if calls == [] then []
    else (if calls[0].ModelAppendCall? then [calls[0].messages] else []) + Appended(calls[1..])
  }

  lemma {:induction false} AppendedAppend(a: seq<Call>, b: seq<Call>)
    ensures Appended(a + b) == Appended(a) + Appended(b)
  {
    if a == [] {
      assert a + b == b;
    } else {
      assert (a + b)[0] == a[0];
      assert (a + b)[1..] == a[1..] + b;
      AppendedAppend(a[1..], b);
    }
  }

  /** One more call adds its messages when it is an `append`, and counts when it is a `destroy`. */
  lemma AppendedSnoc(calls: seq<Call>, c: Call)
    ensures Appended(calls + [c]) == Appended(calls) + (if c.ModelAppendCall? then [c.messages] else [])
    ensures Count(calls + [c], IsModelDestroy) == Count(calls, IsModelDestroy) + (if c.ModelDestroyCall? then 1 else 0)
  {
    AppendedAppend(calls, [c]);
    assert [c][1..] == [];
    CountAppend(calls, [c], IsModelDestroy);
    CountOne(c, IsModelDestroy);
  }

  lemma {:induction false} NoAppendedWithoutAppends(calls: seq<Call>)
    requires Count(calls, IsModelAppend) == 0
    ensures Appended(calls) == []
  {
    if calls != [] {
      NoAppendedWithoutAppends(calls[1..]);
    }
  }

  /** The turns appended for the first `k` of `images`, in order. */
  function Turns(images: seq<ImageFile>, k: nat): (r: seq<seq<PromptMessage>>)
    requires k <= |images|
    ensures |r| == k
    ensures forall i :: 0 <= i < k ==> r[i] == ImageTurn(i, |images|, images[i])
  {
    seq(k, i requires 0 <= i < k => ImageTurn(i, |images|, images[i]))
  }

  /** The part of `analyzeMultipleImages` after every image is appended: ask, destroy on success, prefix a failure. */
  function AskForAnalysis(h: LanguageModelHost, question: PromptInput, appended: seq<Call>): (r: Traced<Result<string>>)
    requires Count(appended, IsModelDestroy) == 0
    ensures r.value.Ok? <==> h.prompt(question).Ok?
    ensures r.value.Ok? ==> r.value == h.prompt(question)
    ensures r.value.Err? ==> r.value.msg == MultiFailurePrefix + h.prompt(question).msg
    ensures Appended(r.calls) == Appended(appended)
    ensures Count(r.calls, IsModelDestroy) == if r.value.Ok? then 1 else 0
  {
    var asked := appended + [ModelPromptCall(question)];
    AppendedSnoc(appended, ModelPromptCall(question));
    match h.prompt(question)
    case Ok(d) =>
      AppendedSnoc(asked, ModelDestroyCall);
      Traced(Ok(d), asked + [ModelDestroyCall])
    case Err(m) => Traced(Err(MultiFailurePrefix + m), asked)
  }

  /**
   * `analyzeMultipleImages(images, analysisPrompt, onProgress)`: one session,
   * the images appended in order, each labelled with its position, then one
   * prompt. An `append` that rejects stops the loop.
   */
  method AnalyzeMultipleImages(h: LanguageModelHost, images: seq<ImageFile>, analysisPrompt: string, withProgress: bool)
    returns (r: Traced<Result<string>>)
    ensures r.value.Ok? <==>
      && CreatePromptSession(h, MultiSessionQuery, withProgress).value
      && (forall i :: 0 <= i < |images| ==> h.append(ImageTurn(i, |images|, images[i])).Ok?)
      && h.prompt(PlainPrompt(analysisPrompt)).Ok?
    ensures r.value.Ok? ==> r.value == h.prompt(PlainPrompt(analysisPrompt)) && Appended(r.calls) == Turns(images, |images|)
    ensures r.value.Err? ==> StartsWith(r.value.msg, MultiFailurePrefix)
    ensures Count(r.calls, IsModelDestroy) == if r.value.Ok? then 1 else 0
  {
    var s := CreatePromptSession(h, MultiSessionQuery, withProgress);
    if !s.value {
      return Traced(Err(MultiFailurePrefix + "Failed to create Prompt API session for multi-image analysis"), s.calls);
    }
    NoAppendedWithoutAppends(s.calls);
    var calls := s.calls;
    var i := 0;
    while i < |images|
      invariant 0 <= i <= |images|
      invariant Appended(calls) == Turns(images, i)
      invariant forall j :: 0 <= j < i ==> h.append(ImageTurn(j, |images|, images[j])).Ok?
      invariant Count(calls, IsModelDestroy) == 0
    {
      var turn := ImageTurn(i, |images|, images[i]);
      AppendedSnoc(calls, ModelAppendCall(turn));
      match h.append(turn)
      case Err(m) =>
        assert !h.append(ImageTurn(i, |images|, images[i])).Ok?;
        return Traced(Err(MultiFailurePrefix + m), calls + [ModelAppendCall(turn)]);
      case Ok(_) =>
        assert Turns(images, i + 1) == Turns(images, i) + [turn];
        calls := calls + [ModelAppendCall(turn)];
        i := i + 1;
    }
    r := AskForAnalysis(h, PlainPrompt(analysisPrompt), calls);
  }
}
