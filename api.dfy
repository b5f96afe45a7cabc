/**
 * The chat answer pipeline of the popup: the canned fallback answers, the
 * ladder `fetchAIResponse` climbs from the summarizer probe through page
 * extraction to a Feynman explanation or a question-answering summary, and
 * the summary of the selection or page.
 */
module Api {
  import opened Wrappers
  import opened Strings
  import opened Host
  import opened Summarizer
  import ContentExtraction

  // ------------------------------------------------------ canned answers

  const EcmaScriptAnswer := "**ECMAScript** is the standard that JavaScript is based on. Think of it as the rules and specifications that define how JavaScript should work. It's like a blueprint that browsers follow to make JavaScript run consistently everywhere. The most common versions you'll hear about are ES5, ES6/ES2015, and newer versions that add new features to make coding easier and more powerful."
  const HtmlAnswer := "**HTML** (HyperText Markup Language) is the basic building blocks of web pages. It's like the skeleton of a website - it defines the structure and content like headings, paragraphs, links, and images. Think of it as writing the outline of a document, but for web browsers to understand."
  const CssAnswer := "**CSS** (Cascading Style Sheets) is what makes websites look good. If HTML is the skeleton, CSS is the styling - colors, fonts, layouts, animations. It's like the interior designer for your website, making everything look pretty and organized."
  const ReactAnswer := "**React** is a JavaScript library for building user interfaces, especially web applications. It's like having pre-built components (like LEGO blocks) that you can combine to create interactive websites. Instead of writing everything from scratch, React helps you build reusable pieces that update automatically when data changes."
  const ApiAnswer := "**API** (Application Programming Interface) is like a waiter in a restaurant. You (the application) tell the waiter (API) what you want, the waiter goes to the kitchen (server/database) to get it, and brings back what you ordered. It's how different software applications talk to each other."

  const GenericHead := "I'd love to help explain that concept! Unfortunately, Chrome's AI Summarizer API isn't available right now.\n\n**Your question:** \""
  const IssueHead := "\n\n**Technical Issue:** "
  const GenericTail := "\n\nTry asking me directly about common web development concepts, or check that you're using Chrome 115+ with experimental AI features enabled."

  /** The concept answer for a lower-cased message, tried in a fixed order by substring. */
  function CannedAnswer(lower: string): Option<string> {
    if Contains(lower, "ecmascript") || Contains(lower, "javascript") then Some(EcmaScriptAnswer)
    else if Contains(lower, "html") then Some(HtmlAnswer)
    else if Contains(lower, "css") then Some(CssAnswer)
    else if Contains(lower, "react") then Some(ReactAnswer)
    else if Contains(lower, "api") then Some(ApiAnswer)
    else None
  }

  /** The generic answer: the message quoted, and the issue section only for a non-empty reason. */
  function GenericAnswer(m: string, reason: string): string {
    GenericHead + m + "\"" + (if reason != "" then IssueHead + reason else "") + GenericTail
  }

  /**
   * `getFallbackResponse(userMessage, errorReason)`: the first concept the
   * lower-cased message mentions decides the answer, in the order
   * ECMAScript/JavaScript, HTML, CSS, React, API; otherwise the generic
   * answer quotes the message and names the reason when there is one. An
   * absent reason is the empty string, which is falsy as well.
   */
  function GetFallbackResponse(m: string, reason: string): (r: string)
    ensures var l := Lower(m);
      && (Contains(l, "ecmascript") || Contains(l, "javascript") ==> r == EcmaScriptAnswer)
      && (!Contains(l, "ecmascript") && !Contains(l, "javascript") && Contains(l, "html") ==> r == HtmlAnswer)
      && (!Contains(l, "ecmascript") && !Contains(l, "javascript") && !Contains(l, "html") && Contains(l, "css") ==> r == CssAnswer)
      && ((!Contains(l, "ecmascript") && !Contains(l, "javascript") && !Contains(l, "html") && !Contains(l, "css")
           && Contains(l, "react")) ==> r == ReactAnswer)
      && ((!Contains(l, "ecmascript") && !Contains(l, "javascript") && !Contains(l, "html") && !Contains(l, "css")
           && !Contains(l, "react") && Contains(l, "api")) ==> r == ApiAnswer)
    ensures CannedAnswer(Lower(m)).None? ==>
      && StartsWith(r, GenericHead + m + "\"")
      && (reason == "" ==> r == GenericHead + m + "\"" + GenericTail)
      && (reason != "" ==> Contains(r, IssueHead + reason) && |r| == |GenericAnswer(m, "")| + |IssueHead| + |reason|)
  {
    match CannedAnswer(Lower(m))
    case Some(answer) => answer
    case None =>
      var r := GenericAnswer(m, reason);
      var quoted := GenericHead + m + "\"";
      if reason != "" then
        assert r == quoted + (IssueHead + reason) + GenericTail;
        ContainsInside(quoted, IssueHead + reason, GenericTail);
        assert r[..|quoted|] == quoted;
        r
      else
        assert r == quoted + GenericTail;
        assert r[..|quoted|] == quoted;
        r
  }

  lemma NoEarlierConcept(l: string)
    requires 'e' !in l && 'j' !in l && 'h' !in l && 's' !in l
    ensures !Contains(l, "ecmascript") && !Contains(l, "javascript") && !Contains(l, "html")
    ensures !Contains(l, "css") && !Contains(l, "react")
  {
    ContainsNeedsChar(l, "ecmascript", 'e');
    ContainsNeedsChar(l, "javascript", 'j');
    ContainsNeedsChar(l, "html", 'h');
    ContainsNeedsChar(l, "css", 's');
    ContainsNeedsChar(l, "react", 'e');
  }

  /** "capital" holds "api": matching is by substring, not by word. */
  lemma CapitalTriggersApi()
    ensures GetFallbackResponse("Capital city?", "") == ApiAnswer
  {
    var l := "capital city?";
    assert Lower("Capital city?")[0] == 'c';
    assert Lower("Capital city?") == l;
    assert 'e' !in l && 'j' !in l && 'h' !in l && 's' !in l;
    NoEarlierConcept(l);
    assert l[1..4] == "api";
    assert OccursAt(l, "api", 1);
  }

  /** Upper-case letters in the message do not hide a concept. */
  lemma FallbackIgnoresCase(m: string, n: string, a: string, b: string)
    requires Lower(m) == Lower(n)
    requires CannedAnswer(Lower(m)).Some?
    ensures GetFallbackResponse(m, a) == GetFallbackResponse(n, b)
  {
  }

  // ---------------------------------------------------- classification

  const ExplanationWords := ["explain", "clarify", "what", "how", "why", "mean", "understand", "breakdown", "simplify"]
  const ProgrammingWords := ["ref", "react", "javascript", "js", "css", "html", "function", "component", "hook",
    "usestate", "useeffect", "props", "state", "mounted", "render"]

  /** `/\b(explain|clarify|...)\b/i.test(userMessage)`. */
  predicate IsExplanationRequest(m: string) {
    MatchesAnyWord(m, ExplanationWords)
  }

  /** `/\b(ref|react|...)\b/i.test(userMessage)`. */
  predicate IsProgrammingQuestion(m: string) {
    MatchesAnyWord(m, ProgrammingWords)
  }

  // ------------------------------------------------------- topic strip

  /** The alternatives of the leading pattern, in the order the regular expression tries them. */
  const TopicKeywords := ["explain", "clarify", "what", "how", "why", "what does", "what is", "how does"]

  /** `s` starts with the lower-case `word`, ignoring ASCII case and with no word boundary. */
  predicate StartsIgnoringCase(s: string, word: string) {
    |word| <= |s| && Lower(s[..|word|]) == word
  }

  function FirstKeywordFrom(m: string, k: nat): (r: Option<nat>)
    requires k <= |TopicKeywords|
    ensures r.Some? ==> k <= r.value < |TopicKeywords| && StartsIgnoringCase(m, TopicKeywords[r.value])
    ensures forall j :: k <= j < |TopicKeywords| && (r.None? || j < r.value) ==> !StartsIgnoringCase(m, TopicKeywords[j])
    decreases |TopicKeywords| - k
  {
    if k == |TopicKeywords| then None
    else if StartsIgnoringCase(m, TopicKeywords[k]) then Some(k)
    else FirstKeywordFrom(m, k + 1)
  }

  /** The alternative the pattern matches with: the first one `m` starts with. */
  function FirstKeyword(m: string): (r: Option<nat>)
    ensures r.Some? ==> r.value < |TopicKeywords| && StartsIgnoringCase(m, TopicKeywords[r.value])
    ensures forall j :: 0 <= j < |TopicKeywords| && (r.None? || j < r.value) ==> !StartsIgnoringCase(m, TopicKeywords[j])
  {
    FirstKeywordFrom(m, 0)
  }

  lemma TrimAfterTrimStart(s: string)
    ensures Trim(TrimStart(s)) == Trim(s)
  {
    var t := TrimStart(s);
    assert TrimStart(t) == t;
  }

  /** One space before an unspaced word is all `trim` removes. */
  lemma TrimOneLeadingSpace(t: string)
    requires t != [] && !IsSpace(t[0]) && !IsSpace(t[|t| - 1])
    ensures Trim([' '] + t) == t
  {
    var s := [' '] + t;
    assert s[1..] == t;
    assert TrimStart(s) == t;
    TrimAfterTrimStart(s);
    TrimUnspaced(t);
  }

  /**
   * `userMessage.replace(/^(explain|...|how does)\s*\/i, '').trim()`: at most
   * one leading keyword goes, with the whitespace after it, then the rest is
   * trimmed.
   */
  function StripTopic(m: string): (r: string)
    ensures |r| <= |m|
    ensures FirstKeyword(m).None? ==> r == Trim(m)
    ensures FirstKeyword(m).Some? ==> r == Trim(m[|TopicKeywords[FirstKeyword(m).value]|..])
  {
    match FirstKeyword(m)
    case None => Trim(m)
    case Some(k) =>
      var rest := m[|TopicKeywords[k]|..];
      TrimAfterTrimStart(rest);
      Trim(TrimStart(rest))
  }

  lemma FirstKeywordOfWhatIs()
    ensures FirstKeyword("What is a closure") == Some(2)
  {
    var m := "What is a closure";
    assert Lower(m[..7])[0] == 'w';
    assert m[..4] == "What" && Lower("What")[0] == 'w';
    assert FirstKeywordFrom(m, 2) == Some(2);
  }

  /** `what` is tried before `what is`, so the verb stays in the topic. */
  lemma WhatIsKeepsIs()
    ensures StripTopic("What is a closure") == "is a closure"
  {
    FirstKeywordOfWhatIs();
    assert TopicKeywords[2] == "what";
    var t := "is a closure";
    assert "What is a closure"[4..] == [' '] + t;
    assert t[0] == 'i' && t[|t| - 1] == 'e';
    TrimOneLeadingSpace(t);
  }

  lemma FirstKeywordOfHowever()
    ensures FirstKeyword("However") == Some(3)
  {
    var m := "However";
    assert Lower(m[..7])[0] == 'h';
    assert m[..3] == "How" && Lower("How")[0] == 'h';
    assert FirstKeywordFrom(m, 3) == Some(3);
  }

  /** No word boundary is required: the keyword can be the start of a longer word. */
  lemma KeywordInsideWord()
    ensures StripTopic("However") == "ever"
  {
    FirstKeywordOfHowever();
    var t := "However"[3..];
    assert t == "ever";
    assert !IsSpace(t[0]) && t[|t| - 1] == 'r';
    assert TrimStart(t) == t;
    TrimUnspaced(t);
  }

  lemma FirstKeywordOfExplainTwice()
    ensures FirstKeyword("explain explain") == Some(0)
  {
    var m := "explain explain";
    assert m[..7] == "explain";
  }

  /** Only one keyword goes: a repeated keyword survives in the topic. */
  lemma OnlyOneKeywordStripped()
    ensures StripTopic("explain explain") == "explain"
  {
    FirstKeywordOfExplainTwice();
    assert TopicKeywords[0] == "explain";
    var t := "explain";
    assert "explain explain"[7..] == [' '] + t;
    assert t[0] == 'e' && t[|t| - 1] == 'n';
    TrimOneLeadingSpace(t);
  }

  // ----------------------------------------------------------- fetchAIResponse

  /** What `fetchAIResponse` can reach: the Summarizer global and the browser. */
  datatype Assistant = Assistant(summarizer: SummarizerHost, browser: ContentExtraction.Browser)

  const NoContextReason := "Could not extract content from current page and fallback failed"
  const AnswerOptions := NoSummarizerOptions.(summaryType := Some(Tldr), format := Some(Markdown), length := Some(Medium))
  const ProgrammingContextMin := 100

  /** The basic context built from the active tab, `'Unknown'` for what is missing. */
  function BasicContext(tabs: seq<Tab>, m: string): string {
    var title := if tabs == [] then "Unknown" else Or(tabs[0].title, "Unknown");
    var url := if tabs == [] then "Unknown" else Or(tabs[0].url, "Unknown");
    "Page Title: " + title + "\nURL: " + url + "\nUser Question: " + m
  }

  function BasicNote(m: string): string {
    "Answer this question: \"" + m + "\". If you don't have enough context, provide a general explanation of the concept."
  }

  function PageQuestion(page: ContentExtraction.ExtractedPage, m: string): string {
    "\nPage: " + page.title + "\nURL: " + page.url + "\nContent: " + page.text + "\nUser Question: " + m + "\n"
  }

  function PageNote(m: string): string {
    "Answer the user's question about this webpage content: \"" + m + "\""
  }

  function ProgrammingStub(m: string): string {
    "Programming Question: " + m + "\nGeneral web development and React context."
  }

  /**
   * The context of an explanation: the selection, else the page text; a
   * programming question with less than 100 characters of it gets the
   * generic programming stub instead.
   */
  function ExplanationContext(page: ContentExtraction.ExtractedPage, m: string): (r: string)
    ensures var own := if page.selectedText != "" then page.selectedText else page.text;
      && (IsProgrammingQuestion(m) && |own| < ProgrammingContextMin ==> r == ProgrammingStub(m))
      && (!IsProgrammingQuestion(m) || |own| >= ProgrammingContextMin ==> r == own)
    ensures page.selectedText != "" && !IsProgrammingQuestion(m) ==> r == page.selectedText
  {
    var context := if page.selectedText != "" then page.selectedText else page.text;
    if IsProgrammingQuestion(m) && (context == "" || |context| < ProgrammingContextMin) then ProgrammingStub(m)
    else context
  }

  /** The summarizer gave `s` for some text and context. */
  ghost predicate Summarized(h: SummarizerHost, s: string) {
    exists text, context :: h.summarize(text, context) == Ok(s)
  }

  /** `s` is one of the answers `getFallbackResponse` can give for `m`. */
  ghost predicate IsFallback(m: string, s: string) {
    exists reason :: s == GetFallbackResponse(m, reason)
  }

  /** The extraction failed: answer from the tab's title and URL, or fall back with the fixed reason. */
  function BasicContextAnswer(env: Assistant, m: string, withProgress: bool): (r: Traced<string>)
    ensures |r.calls| > 0 && r.calls[0] == TabsQueryCall
    ensures env.browser.tabs.Err? ==> r.value == GetFallbackResponse(m, NoContextReason)
    ensures env.browser.tabs.Ok? ==>
      var s := GenerateSummary(env.summarizer, BasicContext(env.browser.tabs.value, m), AnswerOptions, Some(BasicNote(m)), withProgress);
      && (s.value.Ok? ==> r.value == s.value.value)
      && (s.value.Err? ==> r.value == GetFallbackResponse(m, NoContextReason))
    ensures r.value == GetFallbackResponse(m, NoContextReason) || Summarized(env.summarizer, r.value)
  {
    match env.browser.tabs
    case Err(_) => Traced(GetFallbackResponse(m, NoContextReason), [TabsQueryCall])
    case Ok(tabs) =>
      var s := GenerateSummary(env.summarizer, BasicContext(tabs, m), AnswerOptions, Some(BasicNote(m)), withProgress);
      match s.value
      case Ok(t) => Traced(t, [TabsQueryCall] + s.calls)
      case Err(_) => Traced(GetFallbackResponse(m, NoContextReason), [TabsQueryCall] + s.calls)
  }

  /**
   * The page was read: an explanation request or a programming question is
   * answered with a Feynman explanation of the stripped topic, anything else
   * with a summary of the page aimed at the question. A thrown generation
   * error becomes the fallback naming its message.
   */
  function PageAnswer(env: Assistant, m: string, page: ContentExtraction.ExtractedPage, withProgress: bool): (r: Traced<string>)
    ensures IsExplanationRequest(m) || IsProgrammingQuestion(m) ==>
      var e := GenerateFeynmanExplanation(env.summarizer, StripTopic(m), ExplanationContext(page, m), withProgress);
      && (e.value.Ok? ==> r.value == e.value.value)
      && (e.value.Err? ==> r.value == GetFallbackResponse(m, e.value.msg))
    ensures !IsExplanationRequest(m) && !IsProgrammingQuestion(m) ==>
      var s := GenerateSummary(env.summarizer, PageQuestion(page, m), AnswerOptions, Some(PageNote(m)), withProgress);
      && (s.value.Ok? ==> r.value == s.value.value)
      && (s.value.Err? ==> r.value == GetFallbackResponse(m, s.value.msg))
    ensures || (exists reason :: r.value == GetFallbackResponse(m, reason) && StartsWith(reason, SummaryFailurePrefix))
            || Summarized(env.summarizer, r.value)
  {
    var t := if IsExplanationRequest(m) || IsProgrammingQuestion(m)
      then GenerateFeynmanExplanation(env.summarizer, StripTopic(m), ExplanationContext(page, m), withProgress)
      else GenerateSummary(env.summarizer, PageQuestion(page, m), AnswerOptions, Some(PageNote(m)), withProgress);
    match t.value
    case Ok(answer) => Traced(answer, t.calls)
    case Err(msg) =>
      assert StartsWith(msg, SummaryFailurePrefix);
      Traced(GetFallbackResponse(m, msg), t.calls)
  }

  /**
   * `fetchAIResponse(userMessage, onProgress)`: it never fails. With the
   * summarizer unavailable the answer is the plain fallback and the page is
   * never read; otherwise the page is extracted and the answer comes from
   * the summarizer, or from the fallback when it fails.
   */
  function FetchAIResponse(env: Assistant, m: string, withProgress: bool): (r: Traced<string>)
    ensures var a := CheckSummarizerAvailability(env.summarizer);
      a.value == Unavailable ==> r.value == GetFallbackResponse(m, "") && r.calls == a.calls
    ensures var a := CheckSummarizerAvailability(env.summarizer);
      var p := ContentExtraction.ExtractPageContent(env.browser);
      a.value != Unavailable ==>
        && (p.value.None? ==> r.value == BasicContextAnswer(env, m, withProgress).value
                              && r.calls == a.calls + p.calls + BasicContextAnswer(env, m, withProgress).calls)
        && (p.value.Some? ==> r.value == PageAnswer(env, m, p.value.value, withProgress).value
                              && r.calls == a.calls + p.calls + PageAnswer(env, m, p.value.value, withProgress).calls)
    ensures IsFallback(m, r.value) || Summarized(env.summarizer, r.value)
  {
    var a := CheckSummarizerAvailability(env.summarizer);
    if a.value == Unavailable then
      Traced(GetFallbackResponse(m, ""), a.calls)
    else
      var p := ContentExtraction.ExtractPageContent(env.browser);
      var t := match p.value
        case None => BasicContextAnswer(env, m, withProgress)
        case Some(page) => PageAnswer(env, m, page, withProgress);
      Traced(t.value, a.calls + p.calls + t.calls)
  }

  // -------------------------------------------------- summarizeSelectedContent

  const NoPageMessage := "Could not extract content from current page"
  const NoContentMessage := "No content found to summarize"

  /**
   * `summarizeSelectedContent(summaryType, onProgress)`: a page that cannot be
   * read or holds only whitespace is an error; otherwise the selection, or
   * the page text when nothing is selected, is summarized for the page's
   * domain. Errors are rethrown unchanged.
   */
  function SummarizeSelectedContent(env: Assistant, summaryType: SummaryType, withProgress: bool): (r: Traced<Result<string>>)
    ensures var p := ContentExtraction.ExtractPageContent(env.browser);
      && (p.value.None? ==> r.value == Err(NoPageMessage))
      && (p.value.Some? ==>
            var content := if p.value.value.selectedText != "" then p.value.value.selectedText else p.value.value.text;
            && (Trim(content) == "" ==> r.value == Err(NoContentMessage))
            && (Trim(content) != "" ==>
                  var o := AnswerOptions.(summaryType := Some(summaryType));
                  var context := Some("Summarize this content from " + p.value.value.domain);
                  && (r.value.Ok? <==> GenerateSummary(env.summarizer, content, o, context, withProgress).value.Ok?)
                  && (r.value.Ok? ==> r.value == env.summarizer.summarize(content, context))))
    ensures r.value.Err? ==> r.value.msg in {NoPageMessage, NoContentMessage} || StartsWith(r.value.msg, SummaryFailurePrefix)
  {
    var p := ContentExtraction.ExtractPageContent(env.browser);
    match p.value
    case None => Traced(Err(NoPageMessage), p.calls)
    case Some(page) =>
      var content := if page.selectedText != "" then page.selectedText else page.text;
      if Trim(content) == "" then Traced(Err(NoContentMessage), p.calls)
      else
        var s := GenerateSummary(env.summarizer, content, AnswerOptions.(summaryType := Some(summaryType)),
                                 Some("Summarize this content from " + page.domain), withProgress);
        Traced(s.value, p.calls + s.calls)
  }
}
