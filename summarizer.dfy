/**
 * The Chrome Summarizer integration: the availability probe, the merge of
 * caller options with defaults, creation with exactly one minimal retry,
 * the create / summarize / destroy lifecycle and the Feynman-style
 * explanation request built on top of it.
 */
module Summarizer {
  import opened Wrappers
  import opened Strings
  import opened Host

  /** `checkSummarizerAvailability()`: `'unavailable'` when the global is absent or the probe throws. */
  function CheckSummarizerAvailability(h: SummarizerHost): (r: Traced<Availability>)
    ensures r.value == Unavailable <==> !h.present || h.availability.Err? || h.availability == Ok(Unavailable)
    ensures r.value != Unavailable ==> h.present && h.availability == Ok(r.value)
    ensures r.calls == if h.present then [SummarizerAvailabilityCall] else []
  {
    if !h.present then Traced(Unavailable, [])
    else match h.availability
      case Ok(a) => Traced(a, [SummarizerAvailabilityCall])
      case Err(_) => Traced(Unavailable, [SummarizerAvailabilityCall])
  }

  // ---------------------------------------------------------- option merge

  /** `{ type: 'key-points', format: 'markdown', length: 'medium', language: 'en-US', outputLanguage: 'en-US', ...options }`. */
  function WithCreateDefaults(o: SummarizerOptions): SummarizerOptions {
    SummarizerOptions(
      o.sharedContext,
      Some(o.summaryType.GetOr(KeyPoints)),
      Some(o.format.GetOr(Markdown)),
      Some(o.length.GetOr(Medium)),
      Some(o.language.GetOr(EnUS)),
      Some(o.outputLanguage.GetOr(EnUS)),
      o.expectedInputLanguages)
  }

  /**
   * The object passed to `Summarizer.create`: each field of the merged
   * options `|| default` again, and the monitor only when progress is wanted.
   * `language` and `sharedContext` are not passed on.
   */
  function CreateOptionsFrom(m: SummarizerOptions, monitor: bool): SummarizerCreateOptions {
    SummarizerCreateOptions(
      m.summaryType.GetOr(KeyPoints),
      m.format.GetOr(Markdown),
      m.length.GetOr(Medium),
      m.outputLanguage.GetOr(EnUS),
      m.expectedInputLanguages.GetOr(["en-US"]),
      monitor)
  }

  /** `{ language: 'en-US', outputLanguage: 'en-US', ...options }` in `generateSummary`. */
  function WithLanguageDefaults(o: SummarizerOptions): SummarizerOptions {
    o.(language := Some(o.language.GetOr(EnUS)), outputLanguage := Some(o.outputLanguage.GetOr(EnUS)))
  }

  /**
   * Caller options override the defaults field by field, fields left out are
   * filled with key-points, markdown, medium, en-US and `['en-US']`, and the
   * monitor is attached exactly when progress is wanted.
   */
  lemma CallerOptionsOverrideDefaults(o: SummarizerOptions, monitor: bool)
    ensures var c := CreateOptionsFrom(WithCreateDefaults(o), monitor);
      && (o.summaryType.Some? ==> c.summaryType == o.summaryType.value)
      && (o.summaryType.None? ==> c.summaryType == KeyPoints)
      && (o.format.Some? ==> c.format == o.format.value)
      && (o.format.None? ==> c.format == Markdown)
      && (o.length.Some? ==> c.length == o.length.value)
      && (o.length.None? ==> c.length == Medium)
      && (o.outputLanguage.Some? ==> c.outputLanguage == o.outputLanguage.value)
      && (o.outputLanguage.None? ==> c.outputLanguage == EnUS)
      && (o.expectedInputLanguages.Some? ==> c.expectedInputLanguages == o.expectedInputLanguages.value)
      && (o.expectedInputLanguages.None? ==> c.expectedInputLanguages == ["en-US"])
      && c.monitor == monitor
  {
  }

  /** Merging twice changes nothing, so the language pre-merge of `generateSummary` never changes what `create` receives. */
  lemma LanguagePreMergeIsInvisible(o: SummarizerOptions, monitor: bool)
    ensures WithCreateDefaults(WithCreateDefaults(o)) == WithCreateDefaults(o)
    ensures CreateOptionsFrom(WithCreateDefaults(WithLanguageDefaults(o)), monitor)
         == CreateOptionsFrom(WithCreateDefaults(o), monitor)
  {
  }

  // -------------------------------------------------------------- creation

  /** The options of the single fallback attempt. */
  const MinimalCreateOptions := SummarizerCreateOptions(KeyPoints, PlainText, Short, EnUS, ["en-US"], false)

  /** The options of every `Summarizer.create` call in `calls`, in order. */
  function CreateAttempts(calls: seq<Call>): seq<SummarizerCreateOptions> {
    if calls == [] then []
    else (if calls[0].SummarizerCreateCall? then [calls[0].summarizerOptions] else []) + CreateAttempts(calls[1..])
  }

  lemma {:induction false} CreateAttemptsAppend(a: seq<Call>, b: seq<Call>)
    ensures CreateAttempts(a + b) == CreateAttempts(a) + CreateAttempts(b)
  {
    if a == [] {
      assert a + b == b;
    } else {
      assert (a + b)[0] == a[0];
      assert (a + b)[1..] == a[1..] + b;
      CreateAttemptsAppend(a[1..], b);
    }
  }

  /** The catch block of `createSummarizer`: one more attempt with minimal options when the global exists. */
  function RetryMinimal(h: SummarizerHost, before: seq<Call>): Traced<bool> {
    if h.present then Traced(h.create(MinimalCreateOptions), before + [SummarizerCreateCall(MinimalCreateOptions)])
    else Traced(false, before)
  }

  /**
   * `createSummarizer(options, onProgress)`: whether a summarizer is
   * returned (`false` for `null`); it never throws.
   */
  function CreateSummarizer(h: SummarizerHost, o: SummarizerOptions, withProgress: bool): (r: Traced<bool>)
    ensures !h.present ==> r == Traced(false, [])
    ensures var attempts := CreateAttempts(r.calls);
      && (h.present ==> 1 <= |attempts| <= 2)
      && (r.value <==> attempts != [] && h.create(attempts[|attempts| - 1]))
      && (|attempts| == 2 ==> !h.create(attempts[0]) && attempts[1] == MinimalCreateOptions)
      && (attempts != [] && attempts[0] != MinimalCreateOptions ==> attempts[0] == CreateOptionsFrom(WithCreateDefaults(o), withProgress))
    ensures h.present && CheckSummarizerAvailability(h).value == Unavailable ==> CreateAttempts(r.calls) == [MinimalCreateOptions]
    ensures h.present && CheckSummarizerAvailability(h).value != Unavailable ==>
      var opts := CreateOptionsFrom(WithCreateDefaults(o), withProgress);
      CreateAttempts(r.calls) == (if h.create(opts) then [opts] else [opts, MinimalCreateOptions])
  {
    if !h.present then Traced(false, [])
    else
      var a := CheckSummarizerAvailability(h);
      assert CreateAttempts(a.calls) == [];
      if a.value == Unavailable then
        CreateAttemptsAppend(a.calls, [SummarizerCreateCall(MinimalCreateOptions)]);
        RetryMinimal(h, a.calls)
      else
        var opts := CreateOptionsFrom(WithCreateDefaults(o), withProgress);
        var first := a.calls + [SummarizerCreateCall(opts)];
        CreateAttemptsAppend(a.calls, [SummarizerCreateCall(opts)]);
        CreateAttemptsAppend(first, [SummarizerCreateCall(MinimalCreateOptions)]);
        if h.create(opts) then Traced(true, first) else RetryMinimal(h, first)
  }

  // ------------------------------------------------------------- summaries

  const SummaryFailurePrefix := "Summary generation failed: "
  const NoSummarizerMessage := "Failed to create summarizer - Chrome AI may not be available"

  predicate IsDestroy(c: Call) { c.SummarizerDestroyCall? }

  /**
   * `generateSummary(text, { ...options, context }, onProgress)`: create,
   * summarize, destroy, and prefix every failure.
   */
  function GenerateSummary(h: SummarizerHost, text: string, o: SummarizerOptions, context: Option<string>, withProgress: bool)
    : (r: Traced<Result<string>>)
    ensures r.value.Ok? <==> CreateSummarizer(h, WithLanguageDefaults(o), withProgress).value && h.summarize(text, context).Ok?
    ensures r.value.Ok? ==> r.value == h.summarize(text, context)
    ensures r.value.Err? ==> StartsWith(r.value.msg, SummaryFailurePrefix)
    ensures Count(r.calls, IsDestroy) == if r.value.Ok? then 1 else 0
    ensures CreateAttempts(r.calls) == CreateAttempts(CreateSummarizer(h, WithLanguageDefaults(o), withProgress).calls)
  {
    var created := CreateSummarizer(h, WithLanguageDefaults(o), withProgress);
    assert Count(created.calls, IsDestroy) == 0 by { NoDestroyWhileCreating(h, WithLanguageDefaults(o), withProgress); }
    if !created.value then
      Traced(Err(SummaryFailurePrefix + NoSummarizerMessage), created.calls)
    else
      var asked := created.calls + [SummarizeCall(text, context)];
      CountAppend(created.calls, [SummarizeCall(text, context)], IsDestroy);
      CreateAttemptsAppend(created.calls, [SummarizeCall(text, context)]);
      assert CreateAttempts([SummarizeCall(text, context)]) == [];
      match h.summarize(text, context)
      case Ok(summary) =>
        CountAppend(asked, [SummarizerDestroyCall], IsDestroy);
        CreateAttemptsAppend(asked, [SummarizerDestroyCall]);
        assert CreateAttempts([SummarizerDestroyCall]) == [];
        Traced(Ok(summary), asked + [SummarizerDestroyCall])
      case Err(m) =>
        Traced(Err(SummaryFailurePrefix + m), asked)
  }

  lemma NoDestroyWhileCreating(h: SummarizerHost, o: SummarizerOptions, withProgress: bool)
    ensures Count(CreateSummarizer(h, o, withProgress).calls, IsDestroy) == 0
  {
    var r := CreateSummarizer(h, o, withProgress);
    if h.present {
      var a := CheckSummarizerAvailability(h);
      var opts := CreateOptionsFrom(WithCreateDefaults(o), withProgress);
      CountAppend(a.calls, [SummarizerCreateCall(opts)], IsDestroy);
      CountAppend(a.calls, [SummarizerCreateCall(MinimalCreateOptions)], IsDestroy);
      CountAppend(a.calls + [SummarizerCreateCall(opts)], [SummarizerCreateCall(MinimalCreateOptions)], IsDestroy);
    }
  }

  // ------------------------------------------------- Feynman explanations

  /** The alternatives of the programming-topic pattern, lower-cased. */
  const FeynmanKeywords := ["ref", "react", "javascript", "js", "css", "html", "function", "component",
    "hook", "usestate", "useeffect", "props", "state", "mounted", "render", "api", "code", "programming"]

  predicate IsProgrammingTopic(topic: string) {
    MatchesAnyWord(topic, FeynmanKeywords)
  }

  const ProgrammingTemplateHead := "\nTopic to explain: "
  const ContextTemplateHead := "\nContext: "

  const ProgrammingTemplateTail := "\n\nInstructions: Provide a comprehensive explanation of this programming concept:\n1. What it is and its purpose\n2. How it works in simple terms\n3. Common use cases and examples\n4. Best practices\n5. Common misconceptions or pitfalls\n\nUse markdown formatting and make it beginner-friendly but thorough.\n"
  const TopicLine := "\n\nTopic to explain: "
  const ContextTemplateTail := "\n\nInstructions: Explain this topic using clear, simple language:\n1. What it means in simple terms\n2. Why it's important or useful  \n3. Provide concrete examples\n4. Break down any complex parts\n5. Use analogies where helpful\n\nMake it engaging and easy to understand.\n"

  function ProgrammingTemplate(topic: string): string {
    ProgrammingTemplateHead + topic + ProgrammingTemplateTail
  }

  function ContextTemplate(topic: string, context: string): string {
    ContextTemplateHead + context + TopicLine + topic + ContextTemplateTail
  }

  lemma ProgrammingTemplateShape(topic: string)
    ensures StartsWith(ProgrammingTemplate(topic), ProgrammingTemplateHead)
    ensures !StartsWith(ProgrammingTemplate(topic), ContextTemplateHead)
    ensures Contains(ProgrammingTemplate(topic), topic)
  {
    var r := ProgrammingTemplate(topic);
    ContainsInside(ProgrammingTemplateHead, topic, ProgrammingTemplateTail);
    assert r[..|ProgrammingTemplateHead|] == ProgrammingTemplateHead;
    assert r[1] == ProgrammingTemplateHead[1] == 'T';
  }

  lemma ContextTemplateShape(topic: string, context: string)
    ensures StartsWith(ContextTemplate(topic, context), ContextTemplateHead)
    ensures !StartsWith(ContextTemplate(topic, context), ProgrammingTemplateHead)
    ensures Contains(ContextTemplate(topic, context), topic)
    ensures Contains(ContextTemplate(topic, context), context)
  {
    var r := ContextTemplate(topic, context);
    ContainsInside(ContextTemplateHead + context + TopicLine, topic, ContextTemplateTail);
    var rest := TopicLine + topic + ContextTemplateTail;
    assert r == ContextTemplateHead + context + rest;
    ContainsInside(ContextTemplateHead, context, rest);
    assert r[..|ContextTemplateHead|] == ContextTemplateHead;
    assert r[1] == ContextTemplateHead[1] == 'C';
  }

  /**
   * The text handed to the summarizer: the context-free programming template
   * exactly when the topic is a programming topic and the context is shorter
   * than 200 characters; the topic is always in it, the context whenever the
   * context template is used.
   */
  function FeynmanText(topic: string, context: string): (r: string)
    ensures StartsWith(r, ProgrammingTemplateHead) <==> IsProgrammingTopic(topic) && |context| < 200
    ensures StartsWith(r, ContextTemplateHead) <==> !(IsProgrammingTopic(topic) && |context| < 200)
    ensures Contains(r, topic)
    ensures !(IsProgrammingTopic(topic) && |context| < 200) ==> Contains(r, context)
  {
    if IsProgrammingTopic(topic) && |context| < 200 then
      ProgrammingTemplateShape(topic);
      ProgrammingTemplate(topic)
    else
      ContextTemplateShape(topic, context);
      ContextTemplate(topic, context)
  }

  /** The options `generateFeynmanExplanation` always asks for. */
  const FeynmanOptions := NoSummarizerOptions.(summaryType := Some(Tldr), format := Some(Markdown), length := Some(Long))
  const FeynmanNote := "This should be an educational explanation using simple terms and examples"

  /**
   * `generateFeynmanExplanation(topic, context, onProgress)`: a summary of
   * the chosen template, requested as tldr, markdown and long; errors pass
   * through unchanged.
   */
  function GenerateFeynmanExplanation(h: SummarizerHost, topic: string, context: string, withProgress: bool)
    : (r: Traced<Result<string>>)
    ensures r.value.Ok? <==>
      CreateSummarizer(h, WithLanguageDefaults(FeynmanOptions), withProgress).value
      && h.summarize(FeynmanText(topic, context), Some(FeynmanNote)).Ok?
    ensures r.value.Ok? ==> r.value == h.summarize(FeynmanText(topic, context), Some(FeynmanNote))
    ensures r.value.Err? ==> StartsWith(r.value.msg, SummaryFailurePrefix)
    ensures forall c :: c in CreateAttempts(r.calls) && c != MinimalCreateOptions ==>
      c.summaryType == Tldr && c.format == Markdown && c.length == Long
  {
    var r := GenerateSummary(h, FeynmanText(topic, context), FeynmanOptions, Some(FeynmanNote), withProgress);
    CreateAttemptsOfSummary(h, FeynmanText(topic, context), FeynmanOptions, Some(FeynmanNote), withProgress);
    r
  }

  /** `generateSummary` only ever creates with the merged options or the minimal ones. */
  lemma CreateAttemptsOfSummary(h: SummarizerHost, text: string, o: SummarizerOptions, context: Option<string>, withProgress: bool)
    ensures forall c :: c in CreateAttempts(GenerateSummary(h, text, o, context, withProgress).calls) ==>
      c == MinimalCreateOptions || c == CreateOptionsFrom(WithCreateDefaults(WithLanguageDefaults(o)), withProgress)
  {
    var created := CreateSummarizer(h, WithLanguageDefaults(o), withProgress);
    var attempts := CreateAttempts(created.calls);
    if !h.present {
      assert attempts == [];
    }
    forall c | c in attempts
      ensures c == MinimalCreateOptions || c == CreateOptionsFrom(WithCreateDefaults(WithLanguageDefaults(o)), withProgress)
    {
      var i :| 0 <= i < |attempts| && attempts[i] == c;
    }
  }
}
