/**
 * A web page as the extension reads it: elements with their text, the
 * elements each CSS selector matches, the body and the current selection.
 * Parsing HTML and evaluating selectors belong to the browser; here their
 * outcome is given as data.
 */
module Dom {
  import opened Wrappers
  import opened Strings

  /** A text node of an element; `inScript` marks text inside a `script` or `style` element. */
  datatype TextRun = TextRun(text: string, inScript: bool)

  /**
   * An element: its `tagName` (upper case in HTML documents), its text nodes
   * in document order, its rendered `innerText` and its attributes.
   */
  datatype Element = Element(
    tagName: string,
    runs: seq<TextRun>,
    innerText: string,
    attributes: map<string, string>)

  function ConcatRuns(runs: seq<TextRun>, keepScripts: bool): string {
    if runs == [] then ""
    else (if keepScripts || !runs[0].inScript then runs[0].text else "") + ConcatRuns(runs[1..], keepScripts)
  }

  /** `element.textContent`: all of its text, script and style text included. */
  function TextContent(e: Element): string {
    ConcatRuns(e.runs, true)
  }

  /** `element.textContent` once every `script` and `style` element has been removed. */
  function TextWithoutScripts(e: Element): string {
    ConcatRuns(e.runs, false)
  }

  /** `element.getAttribute(name)`: `null` when the attribute is absent. */
  function Attribute(e: Element, name: string): Option<string> {
    if name in e.attributes then Some(e.attributes[name]) else None
  }

  /**
   * `window.getSelection()`: the number of ranges, the selected text and the
   * element that contains the first range (`None` when it has no parent element).
   */
  datatype Selection = Selection(rangeCount: nat, text: string, container: Option<Element>)

  /**
   * A document: `document.title`, `location.href`, the elements each selector
   * matches in document order, `document.body` and `window.getSelection()`.
   */
  datatype Document = Document(
    title: string,
    href: string,
    matches: map<string, seq<Element>>,
    body: Option<Element>,
    selection: Option<Selection>)

  /** `document.querySelectorAll(selector)`. */
  function QueryAll(d: Document, selector: string): seq<Element> {
    if selector in d.matches then d.matches[selector] else []
  }

  /** `document.querySelector(selector)`: the first element that matches, or `null`. */
  function Query(d: Document, selector: string): (r: Option<Element>)
    ensures r.Some? <==> QueryAll(d, selector) != []
  {
    var all := QueryAll(d, selector);
    if all == [] then None else Some(all[0])
  }

  /** The `content` attribute of `meta[name="description"]`, or `''`. */
  function MetaDescription(d: Document): string {
    match Query(d, "meta[name=\"description\"]")
    case Some(m) => Attribute(m, "content").GetOr("")
    case None => ""
  }

  /**
   * The position, in `selectors`, of the first selector that matches an
   * element: the one a `for ... of` loop with `break` stops at.
   */
  function FirstMatch(d: Document, selectors: seq<string>): (r: Option<nat>)
    ensures r.Some? ==> r.value < |selectors| && Query(d, selectors[r.value]).Some?
    ensures r.Some? ==> forall j :: 0 <= j < r.value ==> Query(d, selectors[j]).None?
    ensures r.None? ==> forall j :: 0 <= j < |selectors| ==> Query(d, selectors[j]).None?
  {
    if selectors == [] then None
    else if Query(d, selectors[0]).Some? then Some(0)
    else match FirstMatch(d, selectors[1..])
      case Some(k) => Some(k + 1)
      case None => None
  }

  /** The loop's view of `FirstMatch`: stopping at `i` (or running off the end) after `i` misses. */
  lemma FirstMatchAt(d: Document, selectors: seq<string>, i: nat)
    requires i <= |selectors|
    requires forall j :: 0 <= j < i ==> Query(d, selectors[j]).None?
    requires i < |selectors| ==> Query(d, selectors[i]).Some?
    ensures FirstMatch(d, selectors) == if i < |selectors| then Some(i) else None
  {
  }
}
