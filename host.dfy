/**
 * The browser and the on-device AI as the extension sees them: tabs, the
 * Summarizer and LanguageModel globals, and the record of every call made
 * to them. Each collaborator is given as the outcomes it produces; a
 * collaborator that depends on its input is a function from that input to
 * the outcome, so the same question gets the same answer within one run.
 */
module Host {
  import opened Wrappers

  /** A `chrome.tabs.Tab`: its id, URL and title, each possibly missing. */
  datatype Tab = Tab(id: Option<int>, url: Option<string>, title: Option<string>)

  /** `tab?.id` is truthy: present and not 0. */
  predicate HasId(t: Tab) {
    t.id.Some? && t.id.value != 0
  }

  /** What `availability()` resolves to. */
  datatype Availability = Available | Unavailable | Downloadable | Downloading

  // ------------------------------------------------------------- Summarizer

  datatype SummaryType = KeyPoints | Tldr | Teaser | Headline
  datatype SummaryFormat = Markdown | PlainText
  datatype SummaryLength = Short | Medium | Long
  datatype Locale = EnUS | EsES | JaJP

  /** `SummarizerOptions`: every field may be left out by the caller. */
  datatype SummarizerOptions = SummarizerOptions(
    sharedContext: Option<string>,
    summaryType: Option<SummaryType>,
    format: Option<SummaryFormat>,
    length: Option<SummaryLength>,
    language: Option<Locale>,
    outputLanguage: Option<Locale>,
    expectedInputLanguages: Option<seq<string>>)

  const NoSummarizerOptions := SummarizerOptions(None, None, None, None, None, None, None)

  /** The object handed to `Summarizer.create`; `monitor` says whether a progress monitor is attached. */
  datatype SummarizerCreateOptions = SummarizerCreateOptions(
    summaryType: SummaryType,
    format: SummaryFormat,
    length: SummaryLength,
    outputLanguage: Locale,
    expectedInputLanguages: seq<string>,
    monitor: bool)

  /**
   * `window.Summarizer`: whether it exists, what `availability()` gives (an
   * `Err` when it throws), whether `create(options)` succeeds, and what
   * `summarize(text, { context })` gives.
   */
  datatype SummarizerHost = SummarizerHost(
    present: bool,
    availability: Result<Availability>,
    create: SummarizerCreateOptions -> bool,
    summarize: (string, Option<string>) -> Result<string>)

  // ------------------------------------------------------------ Prompt API

  datatype Role = SystemRole | UserRole | AssistantRole
  datatype InputKind = TextInput | ImageInput | AudioInput

  /** `{ type, languages? }` in `expectedInputs`. */
  datatype ExpectedInput = ExpectedInput(kind: InputKind, languages: Option<seq<string>>)

  /** `{ type: 'text', languages? }` in `expectedOutputs`. */
  datatype ExpectedOutput = ExpectedOutput(languages: Option<seq<string>>)

  datatype InitialPrompt = InitialPrompt(role: Role, content: string)

  /**
   * `PromptApiOptions`: every field may be left out. Temperatures are real
   * numbers; NaN is not modelled.
   */
  datatype PromptOptions = PromptOptions(
    temperature: Option<real>,
    topK: Option<int>,
    initialPrompts: Option<seq<InitialPrompt>>,
    expectedInputs: Option<seq<ExpectedInput>>,
    expectedOutputs: Option<seq<ExpectedOutput>>)

  /** What `LanguageModel.params()` resolves to. */
  datatype ModelParams = ModelParams(defaultTopK: int, maxTopK: int, defaultTemperature: real, maxTemperature: real)

  /** The object handed to `LanguageModel.create`. */
  datatype SessionOptions = SessionOptions(
    temperature: real,
    topK: int,
    initialPrompts: Option<seq<InitialPrompt>>,
    expectedInputs: seq<ExpectedInput>,
    expectedOutputs: seq<ExpectedOutput>,
    monitor: bool)

  /** A `File` built from image bytes. */
  datatype ImageFile = ImageFile(name: string, mimeType: string, data: seq<bv8>)

  datatype Part = TextPart(value: string) | ImagePart(image: ImageFile)
  datatype PromptMessage = PromptMessage(role: Role, content: seq<Part>)

  /** The argument of `session.prompt`: a plain string or a list of messages. */
  datatype PromptInput = PlainPrompt(text: string) | MessagePrompt(messages: seq<PromptMessage>)

  /**
   * `window.LanguageModel` and the sessions it creates: whether it exists,
   * what `availability(options)` and `params()` give, whether
   * `create(options)` succeeds, and what a session's `prompt` and `append`
   * give (`Err` when they reject).
   */
  datatype LanguageModelHost = LanguageModelHost(
    present: bool,
    availability: PromptOptions -> Result<Availability>,
    params: Result<ModelParams>,
    create: SessionOptions -> bool,
    prompt: PromptInput -> Result<string>,
    append: seq<PromptMessage> -> Result<()>)

  // ------------------------------------------------------------ call trace

  /** One call made to a collaborator. */
  datatype Call =
    | SummarizerAvailabilityCall
    | SummarizerCreateCall(summarizerOptions: SummarizerCreateOptions)
    | SummarizeCall(text: string, context: Option<string>)
    | SummarizerDestroyCall
    | ModelAvailabilityCall(promptOptions: PromptOptions)
    | ModelParamsCall
    | ModelCreateCall(sessionOptions: SessionOptions)
    | ModelPromptCall(input: PromptInput)
    | ModelAppendCall(messages: seq<PromptMessage>)
    | ModelDestroyCall
    | TabsQueryCall
    | ExecuteScriptCall(tabId: int)
    | TabMessageCall(tabId: int, messageType: string)
    | RuntimeMessageCall(messageType: string, url: string)

  /** A call to the LanguageModel global or one of its sessions. */
  predicate IsModelCall(c: Call) {
    || c.ModelAvailabilityCall? || c.ModelParamsCall? || c.ModelCreateCall?
    || c.ModelPromptCall? || c.ModelAppendCall? || c.ModelDestroyCall?
  }

  /** Every call in the trace went to the LanguageModel. */
  predicate ModelOnly(calls: seq<Call>) {
    forall i :: 0 <= i < |calls| ==> IsModelCall(calls[i])
  }

  /** The outcome of an asynchronous flow together with the calls it made, in order. */
  datatype Traced<+T> = Traced(value: T, calls: seq<Call>)

  /** The number of calls in `calls` that satisfy `p`. */
  function Count(calls: seq<Call>, p: Call -> bool): (n: nat)
    ensures n <= |calls|
  {
    if calls == [] then 0 else (if p(calls[0]) then 1 else 0) + Count(calls[1..], p)
  }

  lemma CountOne(c: Call, p: Call -> bool)
    ensures Count([c], p) == if p(c) then 1 else 0
  {
    assert [c][1..] == [];
  }

  lemma {:induction false} CountAppend(a: seq<Call>, b: seq<Call>, p: Call -> bool)
    ensures Count(a + b, p) == Count(a, p) + Count(b, p)
  {
    if a == [] {
      assert a + b == b;
    } else {
      assert (a + b)[0] == a[0];
      assert (a + b)[1..] == a[1..] + b;
      CountAppend(a[1..], b, p);
    }
  }

  /** A trace made only of LanguageModel calls holds none of the calls `p` picks out. */
  lemma {:induction false} CountModelOnly(calls: seq<Call>, p: Call -> bool)
    requires ModelOnly(calls)
    requires forall c :: IsModelCall(c) ==> !p(c)
    ensures Count(calls, p) == 0
  {
    if calls != [] {
      CountModelOnly(calls[1..], p);
    }
  }
}
