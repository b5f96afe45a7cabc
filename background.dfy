/**
 * The service worker: it turns context-menu clicks into the one pending
 * request the popup picks up, and fetches links and images for the popup.
 */
module Background {
  import opened Wrappers
  import opened Strings
  import opened Dom
  import opened Host

  // ------------------------------------------------------ pending requests

  /** The `type` of a pending request; `OtherRequest` is any other string a reader may meet. */
  datatype RequestKind = LinkRequest | SelectionRequest | PageRequest | ImageRequest | OtherRequest(name: string)

  /** The record stored under the `pendingRequest` key; `timestamp` is `Date.now()` when it was stored. */
  datatype PendingRequest = PendingRequest(
    kind: RequestKind,
    url: Option<string>,
    text: Option<string>,
    pageUrl: Option<string>,
    pageTitle: Option<string>,
    imageUrl: Option<string>,
    timestamp: int)

  /** The parts of `chrome.contextMenus.OnClickData` the handlers read. */
  datatype ClickInfo = ClickInfo(
    menuItemId: string,
    linkUrl: Option<string>,
    selectionText: Option<string>,
    srcUrl: Option<string>)

  /** `handleLinkExplanation`: the link and any selected text, or nothing without a link. */
  function LinkRecord(info: ClickInfo, now: int): (r: Option<PendingRequest>)
    ensures r.Some? <==> Truthy(info.linkUrl)
    ensures r.Some? ==> r.value == PendingRequest(LinkRequest, info.linkUrl, Some(Or(info.selectionText, "")), None, None, None, now)
  {
    if !Truthy(info.linkUrl) then None
    else Some(PendingRequest(LinkRequest, info.linkUrl, Some(Or(info.selectionText, "")), None, None, None, now))
  }

  /** `handleSelectionExplanation`: the selected text and the page it is on, or nothing without text. */
  function SelectionRecord(info: ClickInfo, tab: Tab, now: int): (r: Option<PendingRequest>)
    ensures r.Some? <==> Truthy(info.selectionText)
    ensures r.Some? ==> r.value == PendingRequest(SelectionRequest, None, info.selectionText, Some(Or(tab.url, "")), Some(Or(tab.title, "")), None, now)
  {
    if !Truthy(info.selectionText) then None
    else Some(PendingRequest(SelectionRequest, None, info.selectionText, Some(Or(tab.url, "")), Some(Or(tab.title, "")), None, now))
  }

  /** `handlePageSummary`: always stores the page's URL and title. */
  function PageRecord(tab: Tab, now: int): (r: PendingRequest)
    ensures r.kind == PageRequest && r.timestamp == now
    ensures r.url.None? && r.text.None? && r.imageUrl.None?
    ensures r.pageUrl.Some? && r.pageTitle.Some?
    ensures Truthy(tab.url) ==> r.pageUrl == tab.url
    ensures !Truthy(tab.url) ==> r.pageUrl == Some("")
    ensures Truthy(tab.title) ==> r.pageTitle == tab.title
    ensures !Truthy(tab.title) ==> r.pageTitle == Some("")
  {
    PendingRequest(PageRequest, None, None, Some(Or(tab.url, "")), Some(Or(tab.title, "")), None, now)
  }

  /** `handleImageDescription`: the image source and its page, or nothing without a source. */
  function ImageRecord(info: ClickInfo, tab: Tab, now: int): (r: Option<PendingRequest>)
    ensures r.Some? <==> Truthy(info.srcUrl)
    ensures r.Some? ==> r.value == PendingRequest(ImageRequest, None, None, Some(Or(tab.url, "")), Some(Or(tab.title, "")), info.srcUrl, now)
  {
    if !Truthy(info.srcUrl) then None
    else Some(PendingRequest(ImageRequest, None, None, Some(Or(tab.url, "")), Some(Or(tab.title, "")), info.srcUrl, now))
  }

  /**
   * The `onClicked` listener: which record, if any, a click stores. Clicks
   * without a tab id and unknown menu items store nothing.
   */
  function ClickRecord(info: ClickInfo, tab: Option<Tab>, now: int): (r: Option<PendingRequest>)
    ensures r.Some? <==>
      && tab.Some? && HasId(tab.value)
      && (|| (info.menuItemId == "clarify-link" && Truthy(info.linkUrl))
          || (info.menuItemId == "clarify-selection" && Truthy(info.selectionText))
          || info.menuItemId == "clarify-page"
          || (info.menuItemId == "clarify-image" && Truthy(info.srcUrl)))
    ensures r.Some? ==> r.value.timestamp == now && !r.value.kind.OtherRequest?
    ensures r.Some? ==> (r.value.pageUrl.Some? <==> !r.value.kind.LinkRequest?)
    ensures r.Some? && r.value.kind.LinkRequest? ==> r.value.url == info.linkUrl && r.value.text.Some?
    ensures r.Some? && r.value.kind.SelectionRequest? ==> r.value.text == info.selectionText && r.value.pageTitle.Some?
    ensures r.Some? && r.value.kind.PageRequest? ==> r.value.pageTitle.Some? && r.value.text.None? && r.value.imageUrl.None?
    ensures r.Some? && r.value.kind.ImageRequest? ==> r.value.imageUrl == info.srcUrl && r.value.pageTitle.Some?
  {
    if tab.None? || !HasId(tab.value) then None
    else if info.menuItemId == "clarify-link" then LinkRecord(info, now)
    else if info.menuItemId == "clarify-selection" then SelectionRecord(info, tab.value, now)
    else if info.menuItemId == "clarify-page" then Some(PageRecord(tab.value, now))
    else if info.menuItemId == "clarify-image" then ImageRecord(info, tab.value, now)
    else None
  }

  /** `chrome.storage.local` as far as the `pendingRequest` key goes. */
  class PendingSlot {
    var stored: Option<PendingRequest>

    constructor()
      ensures stored == None
    {
      stored := None;
    }

    /** A click: its record, when there is one, replaces whatever was stored. */
    method OnClicked(info: ClickInfo, tab: Option<Tab>, now: int)
      modifies this
      ensures ClickRecord(info, tab, now).Some? ==> stored == ClickRecord(info, tab, now)
      ensures ClickRecord(info, tab, now).None? ==> stored == old(stored)
    {
      var record := ClickRecord(info, tab, now);
      if record.Some? {
        stored := record;
      }
    }

    /** `GET_PENDING_REQUEST`: the stored record or `null`; reading does not remove it. */
    method Get() returns (r: Option<PendingRequest>)
      ensures r == stored
    {
      r := stored;
    }

    /** `CLEAR_PENDING_REQUEST`: removes the key. */
    method Clear()
      modifies this
      ensures stored == None
    {
      stored := None;
    }
  }

  /** The slot after a click, as a value. */
  function AfterClick(stored: Option<PendingRequest>, info: ClickInfo, tab: Option<Tab>, now: int): Option<PendingRequest> {
    var record := ClickRecord(info, tab, now);
    if record.Some? then record else stored
  }

  /** One key: a click that stores overwrites any record nobody consumed, whatever came before. */
  lemma LaterClickOverwrites(stored: Option<PendingRequest>, first: ClickInfo, second: ClickInfo,
                             tab: Option<Tab>, t1: int, t2: int)
    requires ClickRecord(second, tab, t2).Some?
    ensures AfterClick(AfterClick(stored, first, tab, t1), second, tab, t2) == ClickRecord(second, tab, t2)
    ensures AfterClick(AfterClick(stored, first, tab, t1), second, tab, t2).value.timestamp == t2
  {
  }

  // -------------------------------------------------------------- fetching

  /** What `fetch(url)` resolves to: `ok`, `status`, the `content-type` header and the body. */
  datatype FetchResponse = FetchResponse(
    ok: bool,
    status: nat,
    contentType: Option<string>,
    body: string,
    bytes: seq<bv8>)

  /** `fetch`, rejecting with a message on a network failure, and `DOMParser.parseFromString`. */
  datatype Net = Net(fetch: string -> Result<FetchResponse>, parse: string -> Document)

  const LinkFailurePrefix := "Failed to fetch content: "
  const ImageFailurePrefix := "Failed to fetch image: "
  const LinkCap := 5000

  const LinkSelectors: seq<string> := [
    "main", "article", ".content", ".post-content", ".entry-content",
    ".article-content", "#content", ".main-content"]

  function HttpError(status: nat): string {
    "HTTP error! status: " + NatToString(status)
  }

  /** `doc.querySelector('title')?.textContent || ''` once scripts and styles are gone. */
  function PageTitle(d: Document): string {
    match Query(d, "title")
    case Some(e) => TextWithoutScripts(e)
    case None => ""
  }

  /** The text before cleanup: the first selector that matches, then the body when that gave nothing. */
  function RawLinkText(d: Document): string {
    var found := match FirstMatch(d, LinkSelectors)
      case Some(k) => TextWithoutScripts(Query(d, LinkSelectors[k]).value)
      case None => "";
    if found != "" then found
    else match d.body
      case Some(b) => TextWithoutScripts(b)
      case None => ""
  }

  function FormatLinkContent(title: string, description: string, content: string): string {
    "Title: " + title + "\n\nDescription: " + description + "\n\nContent: " + content
  }

  /** The content part of the formatted text can be read back from its end. */
  lemma FormatLinkContentEndsWithContent(title: string, description: string, content: string)
    ensures var f := FormatLinkContent(title, description, content);
      |f| == 33 + |title| + |description| + |content| && f[|f| - |content|..] == content
  {
    var head := "Title: " + title + "\n\nDescription: " + description + "\n\nContent: ";
    assert FormatLinkContent(title, description, content) == head + content;
  }

  /** What `fetchLinkContent` resolves to, or the message it rejects with. */
  function LinkContent(net: Net, url: string): (r: Result<string>)
    ensures r.Err? ==> StartsWith(r.msg, LinkFailurePrefix)
    ensures net.fetch(url).Err? ==> r == Err(LinkFailurePrefix + net.fetch(url).msg)
    ensures net.fetch(url).Ok? && !net.fetch(url).value.ok ==> r == Err(LinkFailurePrefix + HttpError(net.fetch(url).value.status))
    ensures r.Ok? <==> net.fetch(url).Ok? && net.fetch(url).value.ok
    ensures r.Ok? ==>
      var d := net.parse(net.fetch(url).value.body);
      var main := CleanAndCap(RawLinkText(d), LinkCap);
      && r.value == FormatLinkContent(PageTitle(d), MetaDescription(d), main)
      && |main| <= LinkCap && SingleSpaced(main) && (main == [] || !IsSpace(main[0]))
  {
    match net.fetch(url)
    case Err(m) => Err(LinkFailurePrefix + m)
    case Ok(response) =>
      if !response.ok then Err(LinkFailurePrefix + HttpError(response.status))
      else
        var d := net.parse(response.body);
        Ok(FormatLinkContent(PageTitle(d), MetaDescription(d), CleanAndCap(RawLinkText(d), LinkCap)))
  }

  /** `fetchLinkContent`: the fetch, the selector loop with `break`, the body fallback and the cleanup. */
  method FetchLinkContent(net: Net, url: string) returns (r: Result<string>)
    ensures r == LinkContent(net, url)
  {
    var response := net.fetch(url);
    if response.Err? {
      return Err(LinkFailurePrefix + response.msg);
    }
    if !response.value.ok {
      return Err(LinkFailurePrefix + HttpError(response.value.status));
    }
    var d := net.parse(response.value.body);
    var mainContent := "";
    var i := 0;
    while i < |LinkSelectors|
      invariant 0 <= i <= |LinkSelectors|
      invariant forall j :: 0 <= j < i ==> Query(d, LinkSelectors[j]).None?
      invariant mainContent == ""
    {
      var element := Query(d, LinkSelectors[i]);
      if element.Some? {
        mainContent := TextWithoutScripts(element.value);
        break;
      }
      i := i + 1;
    }
    FirstMatchAt(d, LinkSelectors, i);
    if mainContent == "" {
      mainContent := if d.body.Some? then TextWithoutScripts(d.body.value) else "";
    }
    mainContent := CleanAndCap(mainContent, LinkCap);
    r := Ok(FormatLinkContent(PageTitle(d), MetaDescription(d), mainContent));
  }

  /** The bytes of an image and its MIME type. */
  datatype ImageData = ImageData(data: seq<bv8>, mimeType: string)

  /** The MIME type `fetchImageContent` goes by: the header, or `image/png` without one. */
  function MimeType(response: FetchResponse): string {
    Or(response.contentType, "image/png")
  }

  /** `fetchImageContent`: only a successful response whose type starts with `image/` gives data. */
  function FetchImageContent(net: Net, url: string): (r: Result<ImageData>)
    ensures r.Err? ==> StartsWith(r.msg, ImageFailurePrefix)
    ensures r.Ok? <==> net.fetch(url).Ok? && net.fetch(url).value.ok && StartsWith(MimeType(net.fetch(url).value), "image/")
    ensures r.Ok? ==>
      && r.value.data == net.fetch(url).value.bytes
      && StartsWith(r.value.mimeType, "image/")
      && (!Truthy(net.fetch(url).value.contentType) ==> r.value.mimeType == "image/png")
      && (Truthy(net.fetch(url).value.contentType) ==> r.value.mimeType == net.fetch(url).value.contentType.value)
  {
    match net.fetch(url)
    case Err(m) => Err(ImageFailurePrefix + m)
    case Ok(response) =>
      if !response.ok then Err(ImageFailurePrefix + HttpError(response.status))
      else
        var mime := MimeType(response);
        if !StartsWith(mime, "image/") then Err(ImageFailurePrefix + "URL does not point to an image. Content-Type: " + mime)
        else Ok(ImageData(response.bytes, mime))
  }

  // ------------------------------------------------------------ dispatcher

  /** What the `onMessage` listener sends back. */
  datatype Reply =
    | LinkReply(content: Result<string>)
    | ImageReply(image: Result<ImageData>)
    | PendingReply(request: Option<PendingRequest>)
    | ClearReply
    | NoReply

  /**
   * The `onMessage` listener: the reply and whether it returns `true`. Only
   * `CLEAR_PENDING_REQUEST` changes the slot.
   */
  method OnMessage(slot: PendingSlot, net: Net, messageType: string, url: string) returns (keepOpen: bool, reply: Reply)
    modifies slot
    ensures keepOpen <==> messageType in {"FETCH_LINK_CONTENT", "FETCH_IMAGE", "GET_PENDING_REQUEST", "CLEAR_PENDING_REQUEST"}
    ensures messageType == "FETCH_LINK_CONTENT" ==> reply == LinkReply(LinkContent(net, url))
    ensures messageType == "FETCH_IMAGE" ==> reply == ImageReply(FetchImageContent(net, url))
    ensures messageType == "GET_PENDING_REQUEST" ==> reply == PendingReply(old(slot.stored))
    ensures messageType == "CLEAR_PENDING_REQUEST" ==> reply == ClearReply && slot.stored == None
    ensures messageType != "CLEAR_PENDING_REQUEST" ==> slot.stored == old(slot.stored)
    ensures !keepOpen ==> reply == NoReply
  {
    if messageType == "FETCH_LINK_CONTENT" {
      var content := FetchLinkContent(net, url);
      return true, LinkReply(content);
    }
    if messageType == "FETCH_IMAGE" {
      return true, ImageReply(FetchImageContent(net, url));
    }
    if messageType == "GET_PENDING_REQUEST" {
      var stored := slot.Get();
      return true, PendingReply(stored);
    }
    if messageType == "CLEAR_PENDING_REQUEST" {
      slot.Clear();
      return true, ClearReply;
    }
    return false, NoReply;
  }
}
