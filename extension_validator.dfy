/**
 * The self-checks the debug panel runs: which `chrome.*` APIs the page
 * can see, and whether the active tab can be reached and scripted.
 */
module ExtensionValidator {
  import opened Wrappers
  import opened Strings
  import opened Host
  import ContentExtraction

  // ------------------------------------------------ validateExtensionContext

  /** The parts of the `chrome` object the check looks at; `runtimeId` is read only through `runtime`. */
  datatype ChromeApi = ChromeApi(runtime: bool, runtimeId: Option<string>, tabs: bool, scripting: bool, permissions: bool)

  /**
   * The global `chrome` as a script sees it: not declared at all (a browser
   * without it), declared but `undefined`, or an object.
   */
  datatype ChromeGlobal = Undeclared | UndefinedValue | Present(api: ChromeApi)

  datatype Validation = Validation(isValid: bool, errors: seq<string>)

  const NoChromeMessage := "Chrome extension API not available"
  const NoRuntimeMessage := "chrome.runtime not available"
  const NoTabsMessage := "chrome.tabs not available"
  const NoScriptingMessage := "chrome.scripting not available"
  const NoPermissionsMessage := "chrome.permissions not available"
  const NoIdMessage := "Extension ID not available - extension may not be loaded"

  /** The six checks' messages, in the order they are made. */
  const CheckMessages := [NoChromeMessage, NoRuntimeMessage, NoTabsMessage, NoScriptingMessage, NoPermissionsMessage, NoIdMessage]

  /** Which of the six checks fail, in the same order. */
  function Missing(g: ChromeGlobal): (r: seq<bool>)
    ensures |r| == |CheckMessages|
  {
    match g
    case Present(api) => [false, !api.runtime, !api.tabs, !api.scripting, !api.permissions,
                          !(api.runtime && Truthy(api.runtimeId))]
    case _ => [true, true, true, true, true, true]
  }

  /** `[message]` when `flag` is set, else nothing. */
  function Bit(flag: bool, message: string): (r: seq<string>)
    ensures r == [] <==> !flag
  {
    if flag then [message] else []
  }

  /** The errors the check reports for `g`: the message of each failing check, in the fixed order. */
  function ContextErrors(g: ChromeGlobal): (r: seq<string>)
    ensures |r| <= |CheckMessages|
    ensures forall m :: m in r ==> m in CheckMessages
  {
    var f := Missing(g);
    Bit(f[0], CheckMessages[0]) + Bit(f[1], CheckMessages[1]) + Bit(f[2], CheckMessages[2])
    + Bit(f[3], CheckMessages[3]) + Bit(f[4], CheckMessages[4]) + Bit(f[5], CheckMessages[5])
  }

  /**
   * `validateExtensionContext()` as written: `chrome?.runtime` guards a
   * `chrome` that is `undefined` but not one that was never declared, so
   * after the `typeof` check has reported it the next line throws a
   * `ReferenceError`.
   */
  method ValidateExtensionContextAsWritten(g: ChromeGlobal) returns (r: Result<Validation>)
    ensures g.Undeclared? <==> r.Err?
    ensures r.Ok? ==> r.value.errors == ContextErrors(g) && (r.value.isValid <==> r.value.errors == [])
  {
    var present := g.Present?;
    ghost var f := Missing(g);
    var errors: seq<string> := [];
    if !present {
      errors := errors + [NoChromeMessage];
    }
    if g.Undeclared? {
      return Err("ReferenceError: chrome is not defined");
    }
    assert errors == Bit(f[0], NoChromeMessage);
    if !(present && g.api.runtime) {
      errors := errors + [NoRuntimeMessage];
    }
    assert errors == Bit(f[0], NoChromeMessage) + Bit(f[1], NoRuntimeMessage);
    if !(present && g.api.tabs) {
      errors := errors + [NoTabsMessage];
    }
    assert errors == Bit(f[0], NoChromeMessage) + Bit(f[1], NoRuntimeMessage) + Bit(f[2], NoTabsMessage);
    if !(present && g.api.scripting) {
      errors := errors + [NoScriptingMessage];
    }
    if !(present && g.api.permissions) {
      errors := errors + [NoPermissionsMessage];
    }
    if !(present && g.api.runtime && Truthy(g.api.runtimeId)) {
      errors := errors + [NoIdMessage];
    }
    r := Ok(Validation(errors == [], errors));
  }

  /**
   * `validateExtensionContext()` as its `typeof` guard intends: a missing
   * `chrome` is reported like an `undefined` one, with all six errors, and
   * the check never throws.
   */
  method ValidateExtensionContext(g: ChromeGlobal) returns (v: Validation)
    ensures v.errors == ContextErrors(g)
    ensures v.isValid <==> v.errors == []
  {
    var present := g.Present?;
    ghost var f := Missing(g);
    var errors: seq<string> := [];
    if !present {
      errors := errors + [NoChromeMessage];
    }
    assert errors == Bit(f[0], NoChromeMessage);
    if !(present && g.api.runtime) {
      errors := errors + [NoRuntimeMessage];
    }
    assert errors == Bit(f[0], NoChromeMessage) + Bit(f[1], NoRuntimeMessage);
    if !(present && g.api.tabs) {
      errors := errors + [NoTabsMessage];
    }
    assert errors == Bit(f[0], NoChromeMessage) + Bit(f[1], NoRuntimeMessage) + Bit(f[2], NoTabsMessage);
    if !(present && g.api.scripting) {
      errors := errors + [NoScriptingMessage];
    }
    if !(present && g.api.permissions) {
      errors := errors + [NoPermissionsMessage];
    }
    if !(present && g.api.runtime && Truthy(g.api.runtimeId)) {
      errors := errors + [NoIdMessage];
    }
    v := Validation(errors == [], errors);
  }

  /** Without a `chrome` object every check fails. */
  lemma AbsentChromeReportsAll(g: ChromeGlobal)
    requires !g.Present?
    ensures ContextErrors(g) == CheckMessages
  {
  }

  /** The context is valid exactly when every API is there and the runtime has an id. */
  lemma ValidExactlyWhenComplete(g: ChromeGlobal)
    ensures ContextErrors(g) == [] <==>
      g.Present? && g.api.runtime && g.api.tabs && g.api.scripting && g.api.permissions && Truthy(g.api.runtimeId)
  {
  }

  /** A missing runtime is reported twice: once itself and once for its id, in that order. */
  lemma NoRuntimeMeansNoId(api: ChromeApi)
    requires !api.runtime
    ensures var e := ContextErrors(Present(api));
      exists i, j :: 0 <= i < j < |e| && e[i] == NoRuntimeMessage && e[j] == NoIdMessage
  {
    var f := Missing(Present(api));
    var e := ContextErrors(Present(api));
    var mid := Bit(f[2], NoTabsMessage) + Bit(f[3], NoScriptingMessage) + Bit(f[4], NoPermissionsMessage);
    assert e == [NoRuntimeMessage] + mid + [NoIdMessage];
    assert e[0] == NoRuntimeMessage && e[|e| - 1] == NoIdMessage;
  }

  // ------------------------------------------------------------- testTabAccess

  /** The tab summary `testTabAccess` returns. */
  datatype TabInfo = TabInfo(id: int, url: string, title: Option<string>)

  datatype TabAccess = TabAccess(success: bool, error: Option<string>, tab: Option<TabInfo>)

  const NoTabMessage := "No active tab found"
  const NoTabIdMessage := "Active tab has no ID"
  const NoTabUrlMessage := "Active tab has no URL"

  const ValidatorRestrictedPrefixes := ["chrome://", "chrome-extension://", "edge://", "about:", "moz-extension://"]

  /** `restrictedPrefixes.some(prefix => url.startsWith(prefix))`. */
  predicate IsRestrictedForValidator(url: string) {
    exists k | 0 <= k < |ValidatorRestrictedPrefixes| :: StartsWith(url, ValidatorRestrictedPrefixes[k])
  }

  function RestrictedMessage(url: string): string {
    "Cannot access " + url + " - restricted page type"
  }

  /**
   * `testTabAccess()`: the guards run in order (no tab, no id, no URL,
   * restricted page) and the first that fails decides the error; a rejected
   * query reports its message. Only a tab that passes every guard succeeds.
   */
  function TestTabAccess(tabs: Result<seq<Tab>>): (r: TabAccess)
    ensures r.success <==>
      && tabs.Ok? && tabs.value != [] && HasId(tabs.value[0]) && Truthy(tabs.value[0].url)
      && !IsRestrictedForValidator(tabs.value[0].url.value)
    ensures r.success ==> r.error.None?
    ensures !r.success ==> r.error.Some?
    ensures tabs.Err? ==> r.error == Some(tabs.msg)
    ensures tabs.Ok? && tabs.value == [] ==> r.error == Some(NoTabMessage) && r.tab.None?
    ensures tabs.Ok? && tabs.value != [] && !HasId(tabs.value[0]) ==> r.error == Some(NoTabIdMessage)
    ensures tabs.Ok? && tabs.value != [] && HasId(tabs.value[0]) && !Truthy(tabs.value[0].url) ==> r.error == Some(NoTabUrlMessage)
    ensures r.tab.Some? <==> tabs.Ok? && tabs.value != [] && HasId(tabs.value[0]) && Truthy(tabs.value[0].url)
    ensures r.tab.Some? ==>
      var t := tabs.value[0];
      r.tab.value == TabInfo(t.id.value, t.url.value, t.title)
      && (!r.success ==> r.error == Some(RestrictedMessage(t.url.value)))
  {
    match tabs
    case Err(msg) => TabAccess(false, Some(msg), None)
    case Ok(ts) =>
      if ts == [] then TabAccess(false, Some(NoTabMessage), None)
      else
        var t := ts[0];
        if !HasId(t) then TabAccess(false, Some(NoTabIdMessage), None)
        else if !Truthy(t.url) then TabAccess(false, Some(NoTabUrlMessage), None)
        else
          var info := TabInfo(t.id.value, t.url.value, t.title);
          if IsRestrictedForValidator(t.url.value) then TabAccess(false, Some(RestrictedMessage(t.url.value)), Some(info))
          else TabAccess(true, None, Some(info))
  }

  /** Every page the popup refuses to script, this check refuses too. */
  lemma ExtractionRestrictedIsValidatorRestricted(url: string)
    requires ContentExtraction.IsRestrictedUrl(url)
    ensures IsRestrictedForValidator(url)
  {
    if StartsWith(url, "chrome://") {
      assert StartsWith(url, ValidatorRestrictedPrefixes[0]);
    } else if StartsWith(url, "chrome-extension://") {
      assert StartsWith(url, ValidatorRestrictedPrefixes[1]);
    } else if StartsWith(url, "edge://") {
      assert StartsWith(url, ValidatorRestrictedPrefixes[2]);
    } else {
      assert StartsWith(url, ValidatorRestrictedPrefixes[3]);
    }
  }

  /** The converse fails: a Firefox extension page is restricted here but not for the popup. */
  lemma MozExtensionOnlyHere()
    ensures IsRestrictedForValidator("moz-extension://x")
    ensures !ContentExtraction.IsRestrictedUrl("moz-extension://x")
  {
    var u := "moz-extension://x";
    assert StartsWith(u, ValidatorRestrictedPrefixes[4]) by {
      assert u[..16] == "moz-extension://";
    }
    assert u[0] == 'm';
  }
}
