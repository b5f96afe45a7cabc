/**
 * Reading the active tab from the popup: the gate in front of script
 * injection, and the function injected into the page.
 */
module ContentExtraction {
  import opened Wrappers
  import opened Strings
  import opened Dom
  import opened Host

  // ------------------------------------------------- extractContentFromPage

  const ExtractionSelectors: seq<string> := [
    "article", "main", "[role=\"main\"]", ".content", ".post-content",
    ".entry-content", ".article-body", ".story-body"]

  const TextCap := 10000
  const Ellipsis := "..."

  /** `element.innerText || element.textContent || ''`. */
  function ElementText(e: Element): string {
    if e.innerText != "" then e.innerText else TextContent(e)
  }

  /** The length of the whitespace run `s` starts with. */
  function SpaceRun(s: string): (n: nat)
    ensures n <= |s|
  {
    if s != [] && IsSpace(s[0]) then 1 + SpaceRun(s[1..]) else 0
  }

  /** The whitespace `s` starts with. */
  function LeadingSpace(s: string): string {
    s[..SpaceRun(s)]
  }

  /**
   * After a newline, how much of `s` the rest of `\n\s*\n` takes: the greedy
   * `\s*` takes the whole whitespace run and gives characters back until the
   * next one is a newline, so the match ends at the last newline of that run.
   * Zero when the run holds no newline.
   */
  function BlankRun(s: string): (n: nat)
    ensures n <= SpaceRun(s)
  {
    if s == [] || !IsSpace(s[0]) then 0
    else if BlankRun(s[1..]) > 0 then 1 + BlankRun(s[1..])
    else if s[0] == '\n' then 1
    else 0
  }

  /** What the match takes ends in a newline, and the rest of the whitespace run holds none. */
  lemma {:induction false} BlankRunEndsAtLastNewline(s: string)
    ensures var n := BlankRun(s);
      && (n > 0 ==> s[n - 1] == '\n')
      && '\n' !in s[n..SpaceRun(s)]
    decreases |s|
  {
    if s != [] && IsSpace(s[0]) {
      BlankRunEndsAtLastNewline(s[1..]);
      var m := BlankRun(s[1..]);
      if m > 0 {
        assert s[1 + m..SpaceRun(s)] == s[1..][m..SpaceRun(s[1..])];
        assert s[m] == s[1..][m - 1];
      } else {
        assert s[1..SpaceRun(s)] == s[1..][..SpaceRun(s[1..])];
        assert forall c :: c in s[1..SpaceRun(s)] ==> c != '\n';
      }
    }
  }

  /** How many characters after `s[0]` a match starting at `s[0]` takes: none unless `s[0]` is a newline. */
  function Skip(s: string): (n: nat)
    requires s != []
    ensures n < |s|
  {
    if s[0] == '\n' then BlankRun(s[1..]) else 0
  }

  /**
   * `s.replace(/\n\s*\n/g, '\n')`. A match at a newline is replaced by one
   * newline and the scan resumes after it; with no match the character is
   * copied and the scan moves on by one. Either way the first character is
   * what is written.
   */
  function ReplaceBlankLines(s: string): (r: string)
    ensures |r| <= |s|
    decreases |s|
  {
    if s == [] then [] else [s[0]] + ReplaceBlankLines(s[1 + Skip(s)..])
  }

  /** No newline is followed by whitespace holding another newline. */
  predicate NoBlankLine(s: string) {
    forall i :: 0 <= i < |s| && s[i] == '\n' ==> '\n' !in LeadingSpace(s[i + 1..])
  }

  /** A character other than a newline is copied and the scan moves on by one. */
  lemma ReplaceBlankLinesCopies(s: string)
    requires s != [] && s[0] != '\n'
    ensures ReplaceBlankLines(s) == [s[0]] + ReplaceBlankLines(s[1..])
  {
    assert Skip(s) == 0;
  }

  /** Past `n` characters of a whitespace run, the run goes on for the rest of it. */
  lemma {:induction false} SpaceRunSuffix(s: string, n: nat)
    requires n <= SpaceRun(s)
    ensures SpaceRun(s[n..]) == SpaceRun(s) - n
    decreases n
  {
    if n == 0 {
      assert s[n..] == s;
    } else {
      SpaceRunSuffix(s[1..], n - 1);
      assert s[1..][n - 1..] == s[n..];
    }
  }

  /** The whitespace run of `[c] + y` for a whitespace `c` is `c` and the run of `y`. */
  lemma LeadingSpaceCons(c: char, y: string)
    requires IsSpace(c)
    ensures LeadingSpace([c] + y) == [c] + LeadingSpace(y)
  {
    assert ([c] + y)[1..] == y;
  }

  /** After a match, the whitespace before the next non-space holds no newline. */
  lemma NoNewlineAfterMatch(s: string)
    requires s != [] && s[0] == '\n'
    ensures '\n' !in LeadingSpace(s[1 + Skip(s)..])
  {
    var rest := s[1..];
    var n := BlankRun(rest);
    var k := SpaceRun(rest);
    BlankRunEndsAtLastNewline(rest);
    SpaceRunSuffix(rest, n);
    assert s[1 + Skip(s)..] == rest[n..];
    assert rest[n..][..k - n] == rest[n..k];
  }

  /** A prefix whose newlines are all followed by newline-free whitespace keeps a text free of blank lines. */
  lemma NoBlankLineAppend(p: string, x: string)
    requires NoBlankLine(x)
    requires forall i :: 0 <= i < |p| && p[i] == '\n' ==> '\n' !in LeadingSpace((p + x)[i + 1..])
    ensures NoBlankLine(p + x)
  {
    forall i | 0 <= i < |p + x| && (p + x)[i] == '\n' ensures '\n' !in LeadingSpace((p + x)[i + 1..]) {
      if i >= |p| {
        assert (p + x)[i + 1..] == x[i - |p| + 1..];
        assert x[i - |p|] == '\n';
      }
    }
  }

  /**
   * The pass leaves no blank line behind: the `g` flag's scan catches every
   * one. Whitespace without a newline at the head of the text is copied as it is.
   */
  lemma {:induction false} ReplaceBlankLinesLeavesNone(s: string)
    ensures NoBlankLine(ReplaceBlankLines(s))
    ensures '\n' !in LeadingSpace(s) ==> LeadingSpace(ReplaceBlankLines(s)) == LeadingSpace(s)
    decreases |s|
  {
    if s != [] {
      var rest := s[1 + Skip(s)..];
      var x := ReplaceBlankLines(rest);
      assert ReplaceBlankLines(s) == [s[0]] + x;
      ReplaceBlankLinesLeavesNone(rest);
      if s[0] == '\n' {
        NoNewlineAfterMatch(s);
        assert (['\n'] + x)[1..] == x;
        NoBlankLineAppend(['\n'], x);
        LeadingSpaceCons(s[0], s[1..]);
        assert s == [s[0]] + s[1..];
      } else {
        NoBlankLineAppend([s[0]], x);
        if IsSpace(s[0]) {
          LeadingSpaceCons(s[0], s[1..]);
          LeadingSpaceCons(s[0], x);
          assert s == [s[0]] + s[1..] && rest == s[1..];
          if '\n' !in LeadingSpace(s) {
            assert forall c :: c in LeadingSpace(s[1..]) ==> c in LeadingSpace(s);
          }
        }
      }
    }
  }

  /** With no newline in it, a text has no blank line to remove. */
  lemma {:induction false} ReplaceBlankLinesWithoutNewline(s: string)
    requires '\n' !in s
    ensures ReplaceBlankLines(s) == s
    decreases |s|
  {
    if s != [] {
      assert '\n' !in s[1..] by {
        forall c | c in s[1..] ensures c != '\n' {
          assert c in s;
        }
      }
      ReplaceBlankLinesWithoutNewline(s[1..]);
      assert s == [s[0]] + s[1..];
    }
  }

  /** A blank line made of a newline, spaces and a newline collapses to one newline. */
  lemma BlankLineCollapses()
    ensures ReplaceBlankLines("\n \n") == "\n"
  {
    var s: string := "\n \n";
    var t := s[1..];
    assert SpaceRun(t) == 2 by {
      assert IsSpace(t[0]) && t[1..] == "\n" && IsSpace('\n');
      assert SpaceRun("\n") == 1 by { assert "\n"[1..] == []; }
    }
    assert BlankRun(t) == 2 by {
      assert t[1..] == "\n" && "\n"[1..] == [];
    }
    assert s[1 + Skip(s)..] == [];
  }

  /** Whitespace collapsed to single spaces holds no newline. */
  lemma SingleSpacedHasNoNewline(c: string)
    requires SingleSpaced(c)
    ensures '\n' !in c
  {
    if '\n' in c {
      var i :| 0 <= i < |c| && c[i] == '\n';
      assert IsSpace(c[i]);
    }
  }

  /** The blank line pass after the collapse changes nothing: the cleanup is `Normalize`. */
  lemma CleanupIsNormalize(t: string)
    ensures Trim(ReplaceBlankLines(Collapse(t))) == Normalize(t)
    ensures '\n' !in Normalize(t)
  {
    var c := Collapse(t);
    SingleSpacedHasNoNewline(c);
    ReplaceBlankLinesWithoutNewline(c);
    SingleSpacedHasNoNewline(Normalize(t));
  }

  lemma NoNewlineInPrefix(n: string, k: nat)
    requires k <= |n| && '\n' !in n
    ensures '\n' !in n[..k] + Ellipsis
  {
    forall ch | ch in n[..k] ensures ch != '\n' {
      assert ch in n;
    }
  }

  /**
   * The cleanup and the cap: whitespace collapsed, blank lines removed,
   * trimmed, then cut to 10000 characters plus `...` when longer. The blank
   * line pass finds no newline left to act on.
   */
  function CleanPageText(t: string): (r: string)
    ensures |r| <= TextCap + |Ellipsis|
    ensures '\n' !in r
    ensures |Normalize(t)| <= TextCap ==> r == Normalize(t)
    ensures |Normalize(t)| > TextCap ==> r == Normalize(t)[..TextCap] + Ellipsis
  {
    CleanupIsNormalize(t);
    var n := Trim(ReplaceBlankLines(Collapse(t)));
    if |n| > TextCap then
      NoNewlineInPrefix(n, TextCap);
      n[..TextCap] + Ellipsis
    else n
  }

  /** What the injected function returns. */
  datatype PageText = PageText(text: string, selectedText: string, description: string)

  /**
   * The main text before cleanup: the first selector that matches, then the
   * body when that gave nothing. Reading a missing body throws (`None`).
   */
  function RawMainText(d: Document): (r: Option<string>)
    ensures r.None? ==> d.body.None?
    ensures forall k :: (0 <= k < |ExtractionSelectors| && Query(d, ExtractionSelectors[k]).Some?
      && (forall j :: 0 <= j < k ==> Query(d, ExtractionSelectors[j]).None?)) ==>
      var found := ElementText(Query(d, ExtractionSelectors[k]).value);
      r == if found != "" then Some(found) else if d.body.Some? then Some(ElementText(d.body.value)) else None
    ensures (forall k :: 0 <= k < |ExtractionSelectors| ==> Query(d, ExtractionSelectors[k]).None?) ==>
      r == if d.body.Some? then Some(ElementText(d.body.value)) else None
  {
    assert forall k :: (0 <= k < |ExtractionSelectors| && Query(d, ExtractionSelectors[k]).Some?
      && (forall j :: 0 <= j < k ==> Query(d, ExtractionSelectors[j]).None?)) ==> FirstMatch(d, ExtractionSelectors) == Some(k) by {
      forall k | 0 <= k < |ExtractionSelectors| && Query(d, ExtractionSelectors[k]).Some?
        && (forall j :: 0 <= j < k ==> Query(d, ExtractionSelectors[j]).None?)
        ensures FirstMatch(d, ExtractionSelectors) == Some(k)
      {
        FirstMatchAt(d, ExtractionSelectors, k);
      }
    }
    var found := match FirstMatch(d, ExtractionSelectors)
      case Some(k) => ElementText(Query(d, ExtractionSelectors[k]).value)
      case None => "";
    if found != "" then Some(found)
    else match d.body
      case Some(b) => Some(ElementText(b))
      case None => None
  }

  /** What `extractContentFromPage` returns in the page, or `None` when it throws. */
  function ExtractedFromPage(d: Document): (r: Option<PageText>)
    ensures r.None? <==> RawMainText(d).None?
    ensures r.Some? ==>
      && |r.value.text| <= TextCap + |Ellipsis|
      && '\n' !in r.value.text
      && r.value.selectedText == (if d.selection.Some? then Trim(d.selection.value.text) else "")
      && r.value.description == MetaDescription(d)
  {
    match RawMainText(d)
    case None => None
    case Some(t) =>
      var selected := if d.selection.Some? then Trim(d.selection.value.text) else "";
      Some(PageText(CleanPageText(t), selected, MetaDescription(d)))
  }

  /** `extractContentFromPage`: the selector loop with `break`, the body fallback, the cleanup. */
  method ExtractContentFromPage(d: Document) returns (r: Option<PageText>)
    ensures r == ExtractedFromPage(d)
  {
    var selectedText := if d.selection.Some? then Trim(d.selection.value.text) else "";
    var mainText := "";
    var i := 0;
    while i < |ExtractionSelectors|
      invariant 0 <= i <= |ExtractionSelectors|
      invariant forall j :: 0 <= j < i ==> Query(d, ExtractionSelectors[j]).None?
      invariant mainText == ""
    {
      var element := Query(d, ExtractionSelectors[i]);
      if element.Some? {
        mainText := ElementText(element.value);
        break;
      }
      i := i + 1;
    }
    FirstMatchAt(d, ExtractionSelectors, i);
    if mainText == "" {
      if d.body.None? {
        return None;
      }
      mainText := ElementText(d.body.value);
    }
    mainText := CleanPageText(mainText);
    r := Some(PageText(mainText, selectedText, MetaDescription(d)));
  }

  // ----------------------------------------------------- extractPageContent

  /** Pages the browser does not let an extension script. */
  predicate IsRestrictedUrl(url: string) {
    || StartsWith(url, "chrome://")
    || StartsWith(url, "chrome-extension://")
    || StartsWith(url, "edge://")
    || StartsWith(url, "about:")
  }

  /**
   * What the popup can reach: whether `chrome.scripting` exists, what
   * `chrome.tabs.query` gives, the page a script injected into a tab sees
   * (`Err` when `executeScript` rejects) and `new URL(url).hostname`.
   */
  datatype Browser = Browser(
    scripting: bool,
    tabs: Result<seq<Tab>>,
    inject: int -> Result<Document>,
    hostname: string -> Result<string>)

  /** The `PageContent` of the popup side. */
  datatype ExtractedPage = ExtractedPage(
    title: string,
    url: string,
    text: string,
    selectedText: string,
    domain: string,
    description: string)

  /** The active tab passes the gate: it has an id and a URL, and the URL may be scripted. */
  predicate Scriptable(b: Browser) {
    && b.scripting && b.tabs.Ok? && b.tabs.value != []
    && HasId(b.tabs.value[0]) && Truthy(b.tabs.value[0].url)
    && !IsRestrictedUrl(b.tabs.value[0].url.value)
  }

  predicate IsExecuteScript(c: Call) {
    c.ExecuteScriptCall?
  }

  /**
   * `extractPageContent`: every failure, thrown or not, ends in `null`. A
   * tab that fails the gate is never injected into.
   */
  function ExtractPageContent(b: Browser): (r: Traced<Option<ExtractedPage>>)
    ensures Count(r.calls, IsExecuteScript) == (if Scriptable(b) then 1 else 0)
    ensures r.value.Some? <==>
      && Scriptable(b)
      && b.inject(b.tabs.value[0].id.value).Ok?
      && ExtractedFromPage(b.inject(b.tabs.value[0].id.value).value).Some?
      && b.hostname(b.tabs.value[0].url.value).Ok?
    ensures r.value.Some? ==>
      var tab := b.tabs.value[0];
      var page := ExtractedFromPage(b.inject(tab.id.value).value).value;
      && r.value.value.title == Or(tab.title, "")
      && r.value.value.url == tab.url.value
      && r.value.value.domain == b.hostname(tab.url.value).value
      && r.value.value.text == page.text && |r.value.value.text| <= TextCap + |Ellipsis|
      && r.value.value.selectedText == page.selectedText
      && r.value.value.description == page.description
  {
    if !b.scripting then Traced(None, [])
    else
      match b.tabs
      case Err(_) => Traced(None, [TabsQueryCall])
      case Ok(tabs) =>
        CountOne(TabsQueryCall, IsExecuteScript);
        if tabs == [] then Traced(None, [TabsQueryCall])
        else
          var tab := tabs[0];
          if !HasId(tab) || !Truthy(tab.url) || IsRestrictedUrl(tab.url.value) then Traced(None, [TabsQueryCall])
          else
            var calls := [TabsQueryCall, ExecuteScriptCall(tab.id.value)];
            assert calls == [TabsQueryCall] + [ExecuteScriptCall(tab.id.value)];
            CountOne(ExecuteScriptCall(tab.id.value), IsExecuteScript);
            CountAppend([TabsQueryCall], [ExecuteScriptCall(tab.id.value)], IsExecuteScript);
            match b.inject(tab.id.value)
            case Err(_) => Traced(None, calls)
            case Ok(d) =>
              match ExtractedFromPage(d)
              case None => Traced(None, calls)
              case Some(page) =>
                match b.hostname(tab.url.value)
                case Err(_) => Traced(None, calls)
                case Ok(domain) =>
                  Traced(Some(ExtractedPage(Or(tab.title, ""), tab.url.value, page.text, page.selectedText, domain, page.description)), calls)
  }
}
