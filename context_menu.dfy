/**
 * `ContextMenuHandler`: how the popup picks up the pending request, turns
 * it into a prompt (or, for images, a finished description) and says what
 * it is doing.
 */
module ContextMenu {
  import opened Wrappers
  import opened Strings
  import opened Seqs
  import opened Dom
  import opened Host
  import opened Background
  import Content
  import PromptApi

  // ------------------------------------------------------ pending request

  const MaxAge := 30000

  /** A record is stale when it has a truthy timestamp more than 30 seconds old. */
  predicate IsStale(request: PendingRequest, now: int) {
    request.timestamp != 0 && now - request.timestamp > MaxAge
  }

  /** What `getPendingRequest` returns for what the background answered. */
  function FreshRequest(stored: Option<PendingRequest>, now: int): (r: Option<PendingRequest>)
    ensures r.None? <==> stored.None? || IsStale(stored.value, now)
    ensures r.Some? ==> r == stored
    ensures stored.Some? && stored.value.timestamp == 0 ==> r == stored
  {
    if stored.Some? && IsStale(stored.value, now) then None else stored
  }

  /** The boundary is inclusive: a record exactly 30000 ms old is still returned, one 30001 ms old is not. */
  lemma AgeBoundary(request: PendingRequest)
    requires request.timestamp != 0
    ensures FreshRequest(Some(request), request.timestamp + MaxAge) == Some(request)
    ensures FreshRequest(Some(request), request.timestamp + MaxAge + 1) == None
  {
  }

  class ContextMenuHandler {
    constructor()
    {
    }

    /**
     * `getPendingRequest()`: a stale record is cleared and `null` returned;
     * any other answer is returned as it is. When the background cannot be
     * reached the error is swallowed and `null` returned.
     */
    method GetPendingRequest(slot: PendingSlot, now: int, reachable: bool) returns (r: Option<PendingRequest>)
      modifies slot
      ensures !reachable ==> r == None && slot.stored == old(slot.stored)
      ensures reachable ==> r == FreshRequest(old(slot.stored), now)
      ensures reachable && old(slot.stored).Some? && IsStale(old(slot.stored).value, now) ==> slot.stored == None
      ensures !(reachable && old(slot.stored).Some? && IsStale(old(slot.stored).value, now)) ==> slot.stored == old(slot.stored)
    {
      if !reachable {
        return None;
      }
      var response := slot.Get();
      if response.Some? && response.value.timestamp != 0 {
        var age := now - response.value.timestamp;
        if age > MaxAge {
          ClearPendingRequest(slot);
          return None;
        }
      }
      return response;
    }

    /** `clearPendingRequest()`. */
    method ClearPendingRequest(slot: PendingSlot)
      modifies slot
      ensures slot.stored == None
    {
      slot.Clear();
    }
  }

  /** The static `instance` field behind `getInstance`. */
  class HandlerRegistry {
    var instance: ContextMenuHandler?

    constructor()
      ensures instance == null
    {
      instance := null;
    }

    /** `getInstance()`: created on the first call, the same object on every later one. */
    method GetInstance() returns (h: ContextMenuHandler)
      modifies this
      ensures old(instance) != null ==> h == old(instance)
      ensures old(instance) == null ==> fresh(h)
      ensures instance == h
    {
      if instance == null {
        instance := new ContextMenuHandler();
      }
      h := instance;
    }
  }

  /** Two calls to `getInstance` give the same handler. */
  method GetInstanceTwice(registry: HandlerRegistry) returns (a: ContextMenuHandler, b: ContextMenuHandler)
    modifies registry
    ensures a == b && registry.instance == a
  {
    a := registry.GetInstance();
    b := registry.GetInstance();
  }

  // ---------------------------------------------------------- environment

  /**
   * What request processing can reach: the background's fetches (through
   * runtime messages), `chrome.tabs.query` for the active tab, the page the
   * content script in a tab sees (`Err` when `tabs.sendMessage` rejects),
   * the LanguageModel and `new URL(url).hostname`.
   */
  datatype Env = Env(
    net: Net,
    activeTab: Result<seq<Tab>>,
    page: int -> Result<Document>,
    model: LanguageModelHost,
    hostname: string -> Result<string>)

  /** The active tab, when the query succeeds and the tab has an id. */
  function ActiveTabId(env: Env): (r: Option<int>)
    ensures r.Some? <==> env.activeTab.Ok? && env.activeTab.value != [] && HasId(env.activeTab.value[0])
    ensures r.Some? ==> r.value == env.activeTab.value[0].id.value
  {
    if env.activeTab.Ok? && env.activeTab.value != [] && HasId(env.activeTab.value[0])
    then Some(env.activeTab.value[0].id.value) else None
  }

  /** The calls made to ask the content script of the active tab for `messageType`. */
  function TabCalls(env: Env, messageType: string): (r: seq<Call>)
    ensures 1 <= |r| <= 2 && r[0] == TabsQueryCall
    ensures |r| == 2 <==> env.activeTab.Ok? && env.activeTab.value != [] && HasId(env.activeTab.value[0])
    ensures |r| == 2 ==> r[1] == TabMessageCall(env.activeTab.value[0].id.value, messageType)
  {
    match ActiveTabId(env)
    case Some(id) => [TabsQueryCall, TabMessageCall(id, messageType)]
    case None => [TabsQueryCall]
  }

  /** Asking a tab calls neither the model nor the link fetcher. */
  lemma TabCallsAreTabCalls(env: Env, messageType: string)
    ensures Count(TabCalls(env, messageType), IsModelCall) == 0
    ensures Count(TabCalls(env, messageType), IsFetchLink) == 0
  {
    CountNone(TabCalls(env, messageType), IsModelCall);
    CountNone(TabCalls(env, messageType), IsFetchLink);
  }

  predicate IsFetchImage(c: Call) {
    c.RuntimeMessageCall? && c.messageType == "FETCH_IMAGE"
  }

  predicate IsFetchLink(c: Call) {
    c.RuntimeMessageCall? && c.messageType == "FETCH_LINK_CONTENT"
  }

  predicate NoFetchLink(calls: seq<Call>) {
    forall i :: 0 <= i < |calls| ==> !IsFetchLink(calls[i])
  }

  lemma NoFetchLinkAppend(a: seq<Call>, b: seq<Call>)
    ensures NoFetchLink(a) && NoFetchLink(b) ==> NoFetchLink(a + b)
  {
    if NoFetchLink(a) && NoFetchLink(b) {
      forall i | 0 <= i < |a + b| ensures !IsFetchLink((a + b)[i]) {
        if i < |a| {
          assert (a + b)[i] == a[i];
        } else {
          assert (a + b)[i] == b[i - |a|];
        }
      }
    }
  }

  lemma FetchImageIsNotFetchLink(url: string)
    ensures NoFetchLink([RuntimeMessageCall("FETCH_IMAGE", url)])
  {
    assert "FETCH_IMAGE"[6] != "FETCH_LINK_CONTENT"[6];
  }

  // ---------------------------------------------------------------- links

  const NoUrlMessage := "No URL provided for link request"
  const LinkPromptHead := "Please explain the content from this link: "
  const LinkPromptMiddle := "\n\nContent from the linked page:\n"
  const LinkPromptTail := "\n\nPlease provide a clear and concise explanation of what this page is about, its main points, and why it might be relevant or interesting. Format your response in a friendly, conversational way."
  const LinkFallbackHead := "Please explain what you can about this link: "
  const LinkFallbackTail := "\n\nI wasn't able to fetch the content from this page, but please provide any general information you might know about this URL or domain, and explain what type of content it might contain."

  function LinkPrompt(url: string, content: string): (r: string)
    ensures StartsWith(r, LinkPromptHead) && Contains(r, url) && Contains(r, content)
  {
    FiveParts(LinkPromptHead, url, LinkPromptMiddle, content, LinkPromptTail);
    LinkPromptHead + url + LinkPromptMiddle + content + LinkPromptTail
  }

  function LinkFallbackPrompt(url: string): (r: string)
    ensures StartsWith(r, LinkFallbackHead) && Contains(r, url)
  {
    ContainsInside(LinkFallbackHead, url, LinkFallbackTail);
    LinkFallbackHead + url + LinkFallbackTail
  }

  /**
   * `processLinkRequest`: a missing URL throws; after that a failed fetch
   * gives the fallback prompt, never an error.
   */
  function ProcessLinkRequest(env: Env, request: PendingRequest): (r: Traced<Result<string>>)
    ensures !Truthy(request.url) ==> r.value == Err(NoUrlMessage) && r.calls == []
    ensures Truthy(request.url) ==>
      && r.value.Ok? && Contains(r.value.value, request.url.value)
      && r.calls == [RuntimeMessageCall("FETCH_LINK_CONTENT", request.url.value)]
      && (LinkContent(env.net, request.url.value).Ok? ==>
            r.value.value == LinkPrompt(request.url.value, LinkContent(env.net, request.url.value).value))
      && (LinkContent(env.net, request.url.value).Err? ==> r.value.value == LinkFallbackPrompt(request.url.value))
    ensures Count(r.calls, IsModelCall) == 0
  {
    if !Truthy(request.url) then Traced(Err(NoUrlMessage), [])
    else
      var url := request.url.value;
      var calls := [RuntimeMessageCall("FETCH_LINK_CONTENT", url)];
      CountOne(RuntimeMessageCall("FETCH_LINK_CONTENT", url), IsModelCall);
      match LinkContent(env.net, url)
      case Ok(content) => Traced(Ok(LinkPrompt(url, content)), calls)
      case Err(_) => Traced(Ok(LinkFallbackPrompt(url)), calls)
  }

  // ------------------------------------------------------------ selections

  const NoTextMessage := "No text provided for selection request"
  const SelectionPromptHead := "Please explain this selected text: \""
  const SelectionPromptTail := "\n\nPlease provide a clear explanation of what this text means, including:\n1. The main concept or idea\n2. Any technical terms or jargon explained in simple language\n3. Why this might be important or relevant\n4. Additional context if needed\n\nFormat your response in a friendly, educational way that's easy to understand."

  /** The `contextInfo` block built from the content script's selection context. */
  function ContextInfo(c: Content.SelectionContext): string {
    "\n\nContext from the page \"" + c.pageTitle + "\" (" + c.pageUrl + "):\nBefore: \""
    + c.contextBefore + "\"\nAfter: \"" + c.contextAfter + "\""
  }

  /** The selection context the content script of the active tab answers with, if any. */
  function SelectionContextOf(env: Env): Option<Content.SelectionContext> {
    match ActiveTabId(env)
    case None => None
    case Some(id) =>
      match env.page(id)
      case Err(_) => None
      case Ok(d) =>
        match Content.OnMessage(d, "GET_SELECTION_CONTEXT").1
        case SelectionReply(Some(c)) => Some(c)
        case _ => None
  }

  function SelectionPrompt(text: string, contextInfo: string): (r: string)
    ensures StartsWith(r, SelectionPromptHead + text + "\"")
  {
    SelectionPromptHead + text + "\"" + contextInfo + SelectionPromptTail
  }

  /**
   * `processSelectionRequest`: a missing text throws; the page context is
   * added when the content script gives one, and any failure to get it only
   * leaves it out.
   */
  function ProcessSelectionRequest(env: Env, request: PendingRequest): (r: Traced<Result<string>>)
    ensures !Truthy(request.text) ==> r.value == Err(NoTextMessage) && r.calls == []
    ensures Truthy(request.text) ==>
      && r.value.Ok?
      && StartsWith(r.value.value, SelectionPromptHead + request.text.value + "\"")
      && r.calls == TabCalls(env, "GET_SELECTION_CONTEXT")
      && (SelectionContextOf(env).None? ==> r.value.value == SelectionPrompt(request.text.value, ""))
      && (SelectionContextOf(env).Some? ==>
            r.value.value == SelectionPrompt(request.text.value, ContextInfo(SelectionContextOf(env).value)))
    ensures Count(r.calls, IsModelCall) == 0 && Count(r.calls, IsFetchLink) == 0
  {
    TabCallsAreTabCalls(env, "GET_SELECTION_CONTEXT");
    if !Truthy(request.text) then Traced(Err(NoTextMessage), [])
    else
      var info := match SelectionContextOf(env)
        case Some(c) => ContextInfo(c)
        case None => "";
      Traced(Ok(SelectionPrompt(request.text.value, info)), TabCalls(env, "GET_SELECTION_CONTEXT"))
  }

  // ----------------------------------------------------------------- pages

  const PagePromptHead := "Please provide a comprehensive summary of this webpage:\n\nTitle: "
  const PagePromptTail := "\n\nPlease provide:\n1. A concise summary of the main topic and key points\n2. The primary purpose or goal of this page\n3. Important details or insights\n4. Who this content might be most relevant for\n\nFormat your response as a clear, well-structured summary that captures the essence of the page."
  const PageFallbackHead := "Please provide a summary of this webpage: "
  const PageFallbackTail := "\n\nI wasn't able to extract detailed content from the page, but please provide a summary based on the title and URL, and explain what type of content or information this page likely contains."

  /** `${h.level.toUpperCase()}: ${h.text}`. */
  function HeadingLine(h: Content.Heading): string {
    Upper(h.level) + ": " + h.text
  }

  /** One line per heading, in order, each with its level upper-cased. */
  function HeadingLines(hs: seq<Content.Heading>): (r: seq<string>)
    ensures |r| == |hs|
    ensures forall i :: 0 <= i < |hs| ==> r[i] == Upper(hs[i].level) + ": " + hs[i].text
  {
    Map(hs, HeadingLine)
  }

  /** `paragraphs.slice(0, 3)`: at most the first three paragraphs. */
  function KeyParagraphs(c: Content.PageContent): (r: seq<string>)
    ensures |r| <= 3 && |r| <= |c.paragraphs| && r == c.paragraphs[..|r|]
    ensures |c.paragraphs| >= 3 ==> |r| == 3
    ensures |c.paragraphs| < 3 ==> r == c.paragraphs
  {
    Take(c.paragraphs, 3)
  }

  function PagePrompt(pageUrl: Option<string>, c: Content.PageContent): string {
    PagePromptHead + c.title
    + "\nURL: " + Show(pageUrl)
    + "\nDescription: " + c.metaDescription
    + "\n\nMain headings:\n" + Join(HeadingLines(c.headings), "\n")
    + "\n\nMain content:\n" + c.mainContent
    + "\n\nKey paragraphs:\n" + Join(KeyParagraphs(c), "\n\n")
    + PagePromptTail
  }

  function PageFallbackPrompt(request: PendingRequest): (r: string)
    ensures StartsWith(r, PageFallbackHead) && Contains(r, ShowOr(request.pageTitle, request.pageUrl))
  {
    ContainsInside(PageFallbackHead, ShowOr(request.pageTitle, request.pageUrl), PageFallbackTail);
    PageFallbackHead + ShowOr(request.pageTitle, request.pageUrl) + PageFallbackTail
  }

  /** The page content the content script of the active tab answers with, if it can be reached. */
  function PageContentOf(env: Env): (r: Option<Content.PageContent>)
    ensures r.Some? ==> ActiveTabId(env).Some? && env.page(ActiveTabId(env).value).Ok?
    ensures r.Some? ==> r.value == Content.PageContentOf(env.page(ActiveTabId(env).value).value)
  {
    match ActiveTabId(env)
    case None => None
    case Some(id) =>
      match env.page(id)
      case Err(_) => None
      case Ok(d) =>
        match Content.OnMessage(d, "GET_PAGE_CONTENT").1
        case PageReply(c) => Some(c)
        case _ => None
  }

  /** `processPageRequest`: never fails; any failure to reach the page gives the fallback prompt. */
  function ProcessPageRequest(env: Env, request: PendingRequest): (r: Traced<Result<string>>)
    ensures r.value.Ok?
    ensures r.calls == TabCalls(env, "GET_PAGE_CONTENT")
    ensures PageContentOf(env).Some? ==> r.value.value == PagePrompt(request.pageUrl, PageContentOf(env).value)
    ensures PageContentOf(env).None? ==> r.value.value == PageFallbackPrompt(request)
    ensures ActiveTabId(env).Some? && env.page(ActiveTabId(env).value).Ok? ==> PageContentOf(env).Some?
    ensures Count(r.calls, IsModelCall) == 0 && Count(r.calls, IsFetchLink) == 0
  {
    TabCallsAreTabCalls(env, "GET_PAGE_CONTENT");
    var prompt := match PageContentOf(env)
      case Some(c) => PagePrompt(request.pageUrl, c)
      case None => PageFallbackPrompt(request);
    Traced(Ok(prompt), TabCalls(env, "GET_PAGE_CONTENT"))
  }

  // ---------------------------------------------------------------- images

  const NoImageMessage := "No image URL provided for image request"
  const DescribeFailurePrefix := "Failed to describe image: "
  const ImageFileName := "context-menu-image"
  const ImageRequestHead := "Please provide a detailed description of this image from the webpage \""
  const ImageRequestTail := "\". Include what you see, any text content, colors, composition, and context that might be relevant."

  /** The instruction `processImageRequest` gives `describeImage`. */
  function ImageRequestPrompt(request: PendingRequest): string {
    ImageRequestHead + ShowOr(request.pageTitle, request.pageUrl) + ImageRequestTail
  }

  /** The context-based description, its failure rethrown with the outer prefix. */
  function FallbackFor(env: Env, request: PendingRequest, before: seq<Call>): (r: Traced<Result<string>>)
    requires request.imageUrl.Some?
    ensures var f := PromptApi.DescribeFallback(env.model, env.hostname, request.imageUrl.value, request.pageTitle, request.pageUrl);
      && r.calls == before + f.calls
      && (f.value.Ok? ==> r.value == f.value)
      && (f.value.Err? ==> r.value == Err(DescribeFailurePrefix + f.value.msg))
    ensures NoFetchLink(before) ==> NoFetchLink(r.calls)
  {
    var f := PromptApi.DescribeFallback(env.model, env.hostname, request.imageUrl.value, request.pageTitle, request.pageUrl);
    ModelOnlyHasNoFetchLink(f.calls);
    NoFetchLinkAppend(before, f.calls);
    match f.value
    case Ok(d) => Traced(Ok(d), before + f.calls)
    case Err(m) => Traced(Err(DescribeFailurePrefix + m), before + f.calls)
  }

  /** `xs` is where `xs + ys` starts. */
  lemma PrefixOfAppend(xs: seq<Call>, ys: seq<Call>)
    ensures |xs + ys| >= |xs| && (xs + ys)[..|xs|] == xs
  {
  }

  /** Describing a fetched image; a failed description falls back to the context-based one. */
  function DescribeFetched(env: Env, request: PendingRequest, image: ImageData, sent: seq<Call>): (r: Traced<Result<string>>)
    requires request.imageUrl.Some?
    ensures var d := PromptApi.DescribeImage(env.model, ImageFile(ImageFileName, image.mimeType, image.data),
                                             Some(ImageRequestPrompt(request)), true);
      && (d.value.Ok? ==> r == Traced(d.value, sent + d.calls))
      && (d.value.Err? ==> r == FallbackFor(env, request, sent + d.calls))
    ensures |r.calls| >= |sent| && r.calls[..|sent|] == sent
    ensures NoFetchLink(sent) ==> NoFetchLink(r.calls)
  {
    var d := PromptApi.DescribeImage(env.model, ImageFile(ImageFileName, image.mimeType, image.data),
                                     Some(ImageRequestPrompt(request)), true);
    ModelOnlyHasNoFetchLink(d.calls);
    NoFetchLinkAppend(sent, d.calls);
    PrefixOfAppend(sent, d.calls);
    match d.value
    case Ok(text) => Traced(Ok(text), sent + d.calls)
    case Err(_) =>
      var r := FallbackFor(env, request, sent + d.calls);
      PrefixOfAppend(sent + d.calls, r.calls[|sent + d.calls|..]);
      assert r.calls[..|sent|] == (sent + d.calls)[..|sent|];
      r
  }

  /**
   * The multimodal attempt: the image is requested from the background
   * first; a failed fetch goes straight to the context-based description,
   * a fetched image is described.
   */
  function MultimodalAttempt(env: Env, request: PendingRequest, before: seq<Call>): (r: Traced<Result<string>>)
    requires request.imageUrl.Some?
    ensures var url := request.imageUrl.value;
      |r.calls| > |before| && r.calls[|before|] == RuntimeMessageCall("FETCH_IMAGE", url)
    ensures var url := request.imageUrl.value;
      var sent := before + [RuntimeMessageCall("FETCH_IMAGE", url)];
      var fetched := FetchImageContent(env.net, url);
      && (fetched.Err? ==> r == FallbackFor(env, request, sent))
      && (fetched.Ok? ==> r == DescribeFetched(env, request, fetched.value, sent))
    ensures NoFetchLink(before) ==> NoFetchLink(r.calls)
  {
    var url := request.imageUrl.value;
    var sent := before + [RuntimeMessageCall("FETCH_IMAGE", url)];
    FetchImageIsNotFetchLink(url);
    NoFetchLinkAppend(before, [RuntimeMessageCall("FETCH_IMAGE", url)]);
    assert sent[|before|] == RuntimeMessageCall("FETCH_IMAGE", url);
    var r := match FetchImageContent(env.net, url)
      case Err(_) => FallbackFor(env, request, sent)
      case Ok(image) => DescribeFetched(env, request, image, sent);
    assert r.calls[..|sent|] == sent;
    assert r.calls[|before|] == r.calls[..|sent|][|before|];
    r
  }

  /**
   * `processImageRequest`: a missing image URL throws. When the multimodal
   * probe says `'unavailable'` the context-based description is used and
   * no image is fetched; otherwise every failure of the multimodal attempt
   * falls back to it too. Only a failed fallback throws, with the prefix.
   */
  function ProcessImageRequest(env: Env, request: PendingRequest): (r: Traced<Result<string>>)
    ensures !Truthy(request.imageUrl) ==> r.value == Err(NoImageMessage) && r.calls == []
    ensures Truthy(request.imageUrl) && PromptApi.CheckMultimodalAvailability(env.model).value == Unavailable ==>
      var f := PromptApi.DescribeFallback(env.model, env.hostname, request.imageUrl.value, request.pageTitle, request.pageUrl);
      && Count(r.calls, IsFetchImage) == 0
      && (f.value.Ok? ==> r.value == f.value)
      && (f.value.Err? ==> r.value == Err(DescribeFailurePrefix + f.value.msg))
    ensures Truthy(request.imageUrl) && PromptApi.CheckMultimodalAvailability(env.model).value != Unavailable ==>
      && RuntimeMessageCall("FETCH_IMAGE", request.imageUrl.value) in r.calls
      && r == MultimodalAttempt(env, request, PromptApi.CheckMultimodalAvailability(env.model).calls)
    ensures r.value.Err? ==> r.value.msg == NoImageMessage || StartsWith(r.value.msg, DescribeFailurePrefix)
    ensures Count(r.calls, IsFetchLink) == 0
  {
    if !Truthy(request.imageUrl) then Traced(Err(NoImageMessage), [])
    else
      var a := PromptApi.CheckMultimodalAvailability(env.model);
      if a.value == Unavailable then
        var r := FallbackFor(env, request, a.calls);
        var f := PromptApi.DescribeFallback(env.model, env.hostname, request.imageUrl.value, request.pageTitle, request.pageUrl);
        assert ModelOnly(a.calls + f.calls);
        CountModelOnly(r.calls, IsFetchImage);
        CountModelOnly(r.calls, IsFetchLink);
        r
      else
        assert NoFetchLink(a.calls) by { ModelOnlyHasNoFetchLink(a.calls); }
        var r := MultimodalAttempt(env, request, a.calls);
        assert r.calls[|a.calls|] == RuntimeMessageCall("FETCH_IMAGE", request.imageUrl.value);
        CountNone(r.calls, IsFetchLink);
        r
  }

  lemma ModelOnlyHasNoFetchLink(calls: seq<Call>)
    requires ModelOnly(calls)
    ensures NoFetchLink(calls)
  {
  }

  // ------------------------------------------------------------- dispatch

  const UnknownTypePrefix := "Unknown request type: "

  /** The type string of a request kind, as stored. */
  function KindName(kind: RequestKind): string {
    match kind
    case LinkRequest => "link"
    case SelectionRequest => "selection"
    case PageRequest => "page"
    case ImageRequest => "image"
    case OtherRequest(name) => name
  }

  /**
   * `processRequest`: exactly one handler, chosen by the type; an unknown
   * type throws without calling anything. Only a link request sends
   * `FETCH_LINK_CONTENT`, and only an image request talks to the model.
   */
  function ProcessRequest(env: Env, request: PendingRequest): (r: Traced<Result<string>>)
    ensures request.kind.LinkRequest? ==> r == ProcessLinkRequest(env, request)
    ensures request.kind.SelectionRequest? ==> r == ProcessSelectionRequest(env, request)
    ensures request.kind.PageRequest? ==> r == ProcessPageRequest(env, request)
    ensures request.kind.ImageRequest? ==> r == ProcessImageRequest(env, request)
    ensures request.kind.OtherRequest? ==> r.value == Err(UnknownTypePrefix + KindName(request.kind)) && r.calls == []
    ensures !request.kind.LinkRequest? ==> Count(r.calls, IsFetchLink) == 0
    ensures !request.kind.ImageRequest? ==> Count(r.calls, IsModelCall) == 0
  {
    match request.kind
    case LinkRequest => ProcessLinkRequest(env, request)
    case SelectionRequest => ProcessSelectionRequest(env, request)
    case PageRequest => ProcessPageRequest(env, request)
    case ImageRequest => ProcessImageRequest(env, request)
    case OtherRequest(name) => Traced(Err(UnknownTypePrefix + name), [])
  }

  /** Calls none of which `p` picks out count zero. */
  lemma {:induction false} CountNone(calls: seq<Call>, p: Call -> bool)
    requires forall i :: 0 <= i < |calls| ==> !p(calls[i])
    ensures Count(calls, p) == 0
  {
    if calls != [] {
      CountNone(calls[1..], p);
    }
  }

  // --------------------------------------------------------- action message

  const ExcerptLength := 50

  /** `${text?.substring(0, 50)}${text && text.length > 50 ? '...' : ''}`. */
  function Excerpt(text: Option<string>): (r: string)
    ensures text.None? ==> r == "undefined"
    ensures text.Some? && |text.value| <= ExcerptLength ==> r == text.value
    ensures text.Some? && |text.value| > ExcerptLength ==> |r| == ExcerptLength + 3 && r == text.value[..ExcerptLength] + "..."
  {
    match text
    case None => "undefined"
    case Some(t) => Take(t, ExcerptLength) + (if |t| > ExcerptLength then "..." else "")
  }

  /** `getActionMessage`: what the chat shows while the request is processed. */
  function GetActionMessage(request: PendingRequest): (r: string)
    ensures request.kind.LinkRequest? ==> r == "Explaining content from: " + Show(request.url)
    ensures request.kind.SelectionRequest? ==> r == "Explaining selected text: \"" + Excerpt(request.text) + "\""
    ensures request.kind.PageRequest? ==> r == "Summarizing page: " + ShowOr(request.pageTitle, request.pageUrl)
    ensures request.kind.ImageRequest? ==> r == "Describing image from: " + ShowOr(request.pageTitle, request.pageUrl)
    ensures request.kind.OtherRequest? ==> r == "Processing your request..."
  {
    match request.kind
    case LinkRequest => "Explaining content from: " + Show(request.url)
    case SelectionRequest => "Explaining selected text: \"" + Excerpt(request.text) + "\""
    case PageRequest => "Summarizing page: " + ShowOr(request.pageTitle, request.pageUrl)
    case ImageRequest => "Describing image from: " + ShowOr(request.pageTitle, request.pageUrl)
    case OtherRequest(_) => "Processing your request..."
  }
}
