/**
 * The content script: what it reads from the page it runs in, and the
 * message dispatcher through which the popup and the background ask for it.
 */
module Content {
  import opened Wrappers
  import opened Strings
  import opened Seqs
  import opened Dom

  // ------------------------------------------------------------- cleanText

  const CleanTextCap := 3000

  /**
   * `cleanText`: whitespace runs collapsed to one space, trimmed, cut to
   * 3000 characters. The cut comes last, so only a text shorter than the
   * cap is sure to end in a non-space.
   */
  function CleanText(s: string): (r: string)
    ensures |r| <= CleanTextCap
    ensures r == [] || !IsSpace(r[0])
    ensures SingleSpaced(r)
    ensures |r| < CleanTextCap ==> r == Normalize(s) && (r == [] || !IsSpace(r[|r| - 1]))
    ensures |r| <= |Normalize(s)| && r == Normalize(s)[..|r|]
    ensures Words(s) == Words(r) + Words(Normalize(s)[|r|..])
  {
    CleanAndCapKeepsWords(s, CleanTextCap);
    CleanAndCap(s, CleanTextCap)
  }

  // ---------------------------------------------------------- escapeRegExp

  /** The characters of `/[.*+?^${}()|[\]\\]/`. */
  predicate IsRegExpSpecial(c: char) {
    c in ".*+?^${}()|[]\\"
  }

  function EscapeChar(c: char): string {
    if IsRegExpSpecial(c) then ['\\', c] else [c]
  }

  /** `escapeRegExp`: a backslash before every special character, everything else unchanged. */
  function EscapeRegExp(s: string): (r: string)
    ensures |r| >= |s|
    ensures (forall i :: 0 <= i < |s| ==> !IsRegExpSpecial(s[i])) ==> r == s
    ensures |s| == 1 ==> r == (if IsRegExpSpecial(s[0]) then ['\\', s[0]] else s)
  {
    if s == [] then [] else EscapeChar(s[0]) + EscapeRegExp(s[1..])
  }

  /**
   * The replace is global and character by character: the escape of a text
   * is the escapes of its pieces, so together with the one-character case
   * every other character is kept as it is.
   */
  lemma {:induction false} EscapeAppend(a: string, b: string)
    ensures EscapeRegExp(a + b) == EscapeRegExp(a) + EscapeRegExp(b)
  {
    if a == [] {
      assert a + b == b;
    } else {
      assert (a + b)[0] == a[0];
      assert (a + b)[1..] == a[1..] + b;
      EscapeAppend(a[1..], b);
    }
  }

  /** Reading an escaped pattern back: a backslash stands for the character after it. */
  function Unescape(s: string): string
    decreases |s|
  {
    if s == [] then []
    else if s[0] == '\\' && |s| >= 2 then [s[1]] + Unescape(s[2..])
    else [s[0]] + Unescape(s[1..])
  }

  /** Escaping loses nothing: the pattern spells the text it was made from. */
  lemma {:induction false} UnescapeEscape(s: string)
    ensures Unescape(EscapeRegExp(s)) == s
  {
    if s != [] {
      var e := EscapeRegExp(s);
      var t := EscapeRegExp(s[1..]);
      UnescapeEscape(s[1..]);
      if IsRegExpSpecial(s[0]) {
        assert e == ['\\', s[0]] + t;
        assert e[2..] == t;
      } else {
        assert e == [s[0]] + t;
        assert e[1..] == t;
        assert s[0] != '\\';
      }
      assert s == [s[0]] + s[1..];
    }
  }

  /** Every special character of the output sits right after a backslash the escaping put there. */
  lemma {:induction false} EscapedSpecialsArePrefixed(s: string, i: nat)
    requires i < |s| && IsRegExpSpecial(s[i])
    ensures exists k :: 0 < k < |EscapeRegExp(s)| && EscapeRegExp(s)[k] == s[i] && EscapeRegExp(s)[k - 1] == '\\'
  {
    var t := EscapeRegExp(s[1..]);
    if i == 0 {
      var e := EscapeRegExp(s);
      assert e == ['\\', s[0]] + t;
      assert e[1] == s[i] && e[0] == '\\';
    } else {
      EscapedSpecialsArePrefixed(s[1..], i - 1);
      var k :| 0 < k < |t| && t[k] == s[1..][i - 1] && t[k - 1] == '\\';
      var n := |EscapeChar(s[0])|;
      assert EscapeRegExp(s)[n + k] == t[k];
      assert EscapeRegExp(s)[n + k - 1] == t[k - 1];
    }
  }

  // -------------------------------------------------------- getMainContent

  const MainSelectors: seq<string> := [
    "main", "article", "[role=\"main\"]", ".content", ".post-content",
    ".entry-content", ".article-content", "#content", ".main-content", ".page-content"]

  const BlockSelector := "p, div"

  predicate LongerThan50(t: string) {
    |t| > 50
  }

  /** `el.textContent?.trim() || ''`. */
  function TrimmedText(e: Element): string {
    Trim(TextContent(e))
  }

  /** The trimmed text of every `p` and `div`, kept when longer than 50 characters. */
  function BlockTexts(d: Document): (r: seq<string>)
    ensures forall i :: 0 <= i < |r| ==> |r[i]| > 50
    ensures forall e :: e in QueryAll(d, BlockSelector) && |TrimmedText(e)| > 50 ==> TrimmedText(e) in r
    ensures forall i :: 0 <= i < |r| ==> r[i] in Map(QueryAll(d, BlockSelector), TrimmedText)
  {
    var all := QueryAll(d, BlockSelector);
    Filter(Map(all, TrimmedText), LongerThan50)
  }

  predicate DescendingByLength(s: seq<string>) {
    forall i, j :: 0 <= i < j < |s| ==> |s[i]| >= |s[j]|
  }

  /** Insert `x` in front of every element no longer than it. */
  function InsertByLength(x: string, s: seq<string>): (r: seq<string>)
    ensures multiset(r) == multiset(s) + multiset{x}
    ensures |r| == |s| + 1
  {
    if s == [] || |x| >= |s[0]| then [x] + s
    else
      assert s == [s[0]] + s[1..];
      [s[0]] + InsertByLength(x, s[1..])
  }

  lemma {:induction false} InsertKeepsDescending(x: string, s: seq<string>)
    requires DescendingByLength(s)
    ensures DescendingByLength(InsertByLength(x, s))
  {
    if s != [] && |x| < |s[0]| {
      var t := InsertByLength(x, s[1..]);
      InsertKeepsDescending(x, s[1..]);
      forall k | 0 <= k < |t| ensures |t[k]| <= |s[0]| {
        assert t[k] in multiset(t);
        if t[k] != x {
          assert t[k] in multiset(s[1..]);
          var m :| 0 <= m < |s[1..]| && s[1..][m] == t[k];
          assert s[m + 1] == t[k];
        }
      }
    }
  }

  /** `sort((a, b) => b.length - a.length)`: longest first, a permutation of the input. */
  function SortByLength(s: seq<string>): (r: seq<string>)
    ensures multiset(r) == multiset(s)
    ensures |r| == |s|
    ensures DescendingByLength(r)
  {
    if s == [] then []
    else
      assert s == [s[0]] + s[1..];
      InsertKeepsDescending(s[0], SortByLength(s[1..]));
      InsertByLength(s[0], SortByLength(s[1..]))
  }

  /** The fallback of `getMainContent`: the five longest long blocks, longest first, not capped. */
  function LargestBlocks(d: Document): string {
    Join(Take(SortByLength(BlockTexts(d)), 5), "\n\n")
  }

  /** What `getMainContent` returns: the cleaned text of the first selector that matches, else the largest blocks. */
  function MainContent(d: Document): string {
    match FirstMatch(d, MainSelectors)
    case Some(k) => CleanText(TextContent(Query(d, MainSelectors[k]).value))
    case None => LargestBlocks(d)
  }

  /** The blocks the fallback keeps are long ones, and none it leaves out is longer. */
  lemma LargestBlocksAreLongest(d: Document)
    ensures var sorted := SortByLength(BlockTexts(d));
      && |Take(sorted, 5)| <= 5
      && (forall t :: t in Take(sorted, 5) ==> |t| > 50 && t in BlockTexts(d) && t in Map(QueryAll(d, BlockSelector), TrimmedText))
      && (forall i, j :: 0 <= i < |Take(sorted, 5)| && |Take(sorted, 5)| <= j < |sorted| ==> |sorted[j]| <= |sorted[i]|)
  {
    var blocks := BlockTexts(d);
    var sorted := SortByLength(blocks);
    forall t | t in Take(sorted, 5) ensures |t| > 50 && t in blocks && t in Map(QueryAll(d, BlockSelector), TrimmedText) {
      assert t in multiset(sorted);
      var i :| 0 <= i < |blocks| && blocks[i] == t;
    }
  }

  /** `getMainContent`: the selector loop with early return, then the fallback. */
  method GetMainContent(d: Document) returns (r: string)
    ensures r == MainContent(d)
    ensures FirstMatch(d, MainSelectors).Some? ==> |r| <= CleanTextCap
  {
    var i := 0;
    while i < |MainSelectors|
      invariant 0 <= i <= |MainSelectors|
      invariant forall j :: 0 <= j < i ==> Query(d, MainSelectors[j]).None?
    {
      var element := Query(d, MainSelectors[i]);
      if element.Some? {
        FirstMatchAt(d, MainSelectors, i);
        return CleanText(TextContent(element.value));
      }
      i := i + 1;
    }
    FirstMatchAt(d, MainSelectors, i);
    return LargestBlocks(d);
  }

  // -------------------------------------------------------- getPageContent

  datatype Heading = Heading(level: string, text: string)
  datatype Link = Link(text: string, href: string, title: string)
  datatype ImageInfo = ImageInfo(alt: string, src: string, title: string)

  datatype PageContent = PageContent(
    title: string,
    url: string,
    metaDescription: string,
    headings: seq<Heading>,
    paragraphs: seq<string>,
    links: seq<Link>,
    images: seq<ImageInfo>,
    mainContent: string)

  function HeadingOf(e: Element): Heading {
    Heading(Lower(e.tagName), Trim(TextContent(e)))
  }

  function LinkOf(e: Element): Link {
    Link(Trim(TextContent(e)), Attribute(e, "href").GetOr(""), Attribute(e, "title").GetOr(""))
  }

  function ImageOf(e: Element): ImageInfo {
    ImageInfo(Attribute(e, "alt").GetOr(""), Attribute(e, "src").GetOr(""), Attribute(e, "title").GetOr(""))
  }

  predicate HasText(h: Heading) { h.text != "" }
  predicate LongerThan20(t: string) { |t| > 20 }
  predicate HasTextAndHref(l: Link) { l.text != "" && l.href != "" }
  predicate HasAlt(i: ImageInfo) { i.alt != "" }

  function Headings(d: Document): (r: seq<Heading>)
    ensures forall h :: h in r ==> h.text != ""
    ensures forall e :: e in QueryAll(d, "h1, h2, h3") && Trim(TextContent(e)) != "" ==> HeadingOf(e) in r
    ensures forall i :: 0 <= i < |r| ==> r[i] in Map(QueryAll(d, "h1, h2, h3"), HeadingOf)
  {
    var all := QueryAll(d, "h1, h2, h3");
    var mapped := Map(all, HeadingOf);
    Filter(mapped, HasText)
  }

  function Paragraphs(d: Document): (r: seq<string>)
    ensures forall p :: p in r ==> |p| > 20
    ensures forall e :: e in QueryAll(d, "p") && |Trim(TextContent(e))| > 20 ==> Trim(TextContent(e)) in r
    ensures forall i :: 0 <= i < |r| ==> r[i] in Map(QueryAll(d, "p"), TrimmedText)
  {
    var all := QueryAll(d, "p");
    var mapped := Map(all, TrimmedText);
    Filter(mapped, LongerThan20)
  }

  function Links(d: Document): (r: seq<Link>)
    ensures forall l :: l in r ==> l.text != "" && l.href != ""
    ensures forall e :: e in QueryAll(d, "a[href]") && HasTextAndHref(LinkOf(e)) ==> LinkOf(e) in r
    ensures forall i :: 0 <= i < |r| ==> r[i] in Map(QueryAll(d, "a[href]"), LinkOf)
  {
    var all := QueryAll(d, "a[href]");
    var mapped := Map(all, LinkOf);
    Filter(mapped, HasTextAndHref)
  }

  function Images(d: Document): (r: seq<ImageInfo>)
    ensures forall m :: m in r ==> m.alt != ""
    ensures forall e :: e in QueryAll(d, "img[alt]") && HasAlt(ImageOf(e)) ==> ImageOf(e) in r
    ensures forall i :: 0 <= i < |r| ==> r[i] in Map(QueryAll(d, "img[alt]"), ImageOf)
  {
    var all := QueryAll(d, "img[alt]");
    var mapped := Map(all, ImageOf);
    Filter(mapped, HasAlt)
  }

  /**
   * The lists keep document order: what the first `k` matching elements
   * give comes before what the rest give.
   */
  lemma HeadingsInDocumentOrder(d: Document, k: nat)
    requires k <= |QueryAll(d, "h1, h2, h3")|
    ensures var all := QueryAll(d, "h1, h2, h3");
      Headings(d) == Filter(Map(all[..k], HeadingOf), HasText) + Filter(Map(all[k..], HeadingOf), HasText)
  {
    FilterMapSplit(QueryAll(d, "h1, h2, h3"), k, HeadingOf, HasText);
  }

  lemma ParagraphsInDocumentOrder(d: Document, k: nat)
    requires k <= |QueryAll(d, "p")|
    ensures var all := QueryAll(d, "p");
      Paragraphs(d) == Filter(Map(all[..k], TrimmedText), LongerThan20) + Filter(Map(all[k..], TrimmedText), LongerThan20)
  {
    FilterMapSplit(QueryAll(d, "p"), k, TrimmedText, LongerThan20);
  }

  lemma LinksInDocumentOrder(d: Document, k: nat)
    requires k <= |QueryAll(d, "a[href]")|
    ensures var all := QueryAll(d, "a[href]");
      Links(d) == Filter(Map(all[..k], LinkOf), HasTextAndHref) + Filter(Map(all[k..], LinkOf), HasTextAndHref)
  {
    FilterMapSplit(QueryAll(d, "a[href]"), k, LinkOf, HasTextAndHref);
  }

  lemma ImagesInDocumentOrder(d: Document, k: nat)
    requires k <= |QueryAll(d, "img[alt]")|
    ensures var all := QueryAll(d, "img[alt]");
      Images(d) == Filter(Map(all[..k], ImageOf), HasAlt) + Filter(Map(all[k..], ImageOf), HasAlt)
  {
    FilterMapSplit(QueryAll(d, "img[alt]"), k, ImageOf, HasAlt);
  }

  /** What `getPageContent` resolves with. */
  function PageContentOf(d: Document): PageContent {
    PageContent(d.title, d.href, MetaDescription(d), Headings(d), Paragraphs(d), Links(d), Images(d), MainContent(d))
  }

  /** `getPageContent`: the record is assembled once the main content has been found. */
  method GetPageContent(d: Document) returns (r: PageContent)
    ensures r == PageContentOf(d)
    ensures forall h :: h in r.headings ==> h.text != ""
    ensures forall p :: p in r.paragraphs ==> |p| > 20
    ensures forall l :: l in r.links ==> l.text != "" && l.href != ""
    ensures forall m :: m in r.images ==> m.alt != ""
  {
    var main := GetMainContent(d);
    r := PageContent(d.title, d.href, MetaDescription(d), Headings(d), Paragraphs(d), Links(d), Images(d), main);
  }

  // --------------------------------------------------- getSelectionContext

  datatype SelectionContext = SelectionContext(
    selectedText: string,
    contextBefore: string,
    contextAfter: string,
    parentTag: string,
    pageTitle: string,
    pageUrl: string)

  const ContextWindow := 200

  /** The untrimmed text on each side of the first occurrence of `selected` in `full`, or `("", "")`. */
  function Window(full: string, selected: string): (r: (string, string))
    ensures |r.0| <= ContextWindow && |r.1| <= ContextWindow
    ensures !Contains(full, selected) ==> r == ("", "")
    ensures Contains(full, selected) ==>
      var i := IndexOf(full, selected);
      var j := i + |selected|;
      && r.0 == full[(if i < ContextWindow then 0 else i - ContextWindow)..i]
      && r.1 == full[j..(if j + ContextWindow < |full| then j + ContextWindow else |full|)]
  {
    var i := IndexOf(full, selected);
    if i == -1 then ("", "")
    else
      var before := Substring(full, if i - ContextWindow < 0 then 0 else i - ContextWindow, i);
      var after := Substring(full, i + |selected|, i + |selected| + ContextWindow);
      (before, after)
  }

  /** `getSelectionContext`: `null` without a range or with blank text, else a window around it. */
  function GetSelectionContext(d: Document): (r: Option<SelectionContext>)
    ensures r.None? <==> d.selection.None? || d.selection.value.rangeCount == 0 || Trim(d.selection.value.text) == ""
    ensures r.Some? ==>
      && r.value.selectedText == Trim(d.selection.value.text)
      && |r.value.contextBefore| <= ContextWindow && |r.value.contextAfter| <= ContextWindow
      && (r.value.contextBefore == [] || (!IsSpace(r.value.contextBefore[0]) && !IsSpace(r.value.contextBefore[|r.value.contextBefore| - 1])))
      && (r.value.contextAfter == [] || (!IsSpace(r.value.contextAfter[0]) && !IsSpace(r.value.contextAfter[|r.value.contextAfter| - 1])))
      && r.value.pageTitle == d.title && r.value.pageUrl == d.href
    ensures r.Some? && (d.selection.value.container.None?
                        || !Contains(TextContent(d.selection.value.container.value), r.value.selectedText)) ==>
      r.value.contextBefore == "" && r.value.contextAfter == ""
    ensures r.Some? && d.selection.value.container.Some? ==>
      var w := Window(TextContent(d.selection.value.container.value), r.value.selectedText);
      r.value.contextBefore == Trim(w.0) && r.value.contextAfter == Trim(w.1)
  {
    match d.selection
    case None => None
    case Some(sel) =>
      if sel.rangeCount == 0 then None
      else
        var selected := Trim(sel.text);
        if selected == "" then None
        else
          var w := match sel.container
            case Some(p) => Window(TextContent(p), selected)
            case None => ("", "");
          var tag := match sel.container
            case Some(p) => Lower(p.tagName)
            case None => "";
          Some(SelectionContext(selected, Trim(w.0), Trim(w.1), tag, d.title, d.href))
  }

  // ------------------------------------------------------------ dispatcher

  /** What the content script sends back through `sendResponse`. */
  datatype Reply =
    | PageReply(content: PageContent)
    | SelectionReply(context: Option<SelectionContext>)
    | HighlightReply
    | NoReply

  /**
   * The `onMessage` listener: the reply it sends and whether it returns
   * `true` to keep the channel open. Neither extraction throws, so every
   * reply it sends carries `success: true`.
   */
  function OnMessage(d: Document, messageType: string): (r: (bool, Reply))
    ensures r.0 <==> messageType in {"GET_PAGE_CONTENT", "GET_SELECTION_CONTEXT", "HIGHLIGHT_TEXT"}
    ensures messageType == "GET_PAGE_CONTENT" ==> r.1 == PageReply(PageContentOf(d))
    ensures messageType == "GET_SELECTION_CONTEXT" ==> r.1 == SelectionReply(GetSelectionContext(d))
    ensures !r.0 ==> r.1 == NoReply
  {
    if messageType == "GET_PAGE_CONTENT" then (true, PageReply(PageContentOf(d)))
    else if messageType == "GET_SELECTION_CONTEXT" then (true, SelectionReply(GetSelectionContext(d)))
    else if messageType == "HIGHLIGHT_TEXT" then (true, HighlightReply)
    else (false, NoReply)
  }
}
