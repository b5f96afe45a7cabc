# ClarifAI, modelled in Dafny

ClarifAI is a Chrome extension that explains and summarises what the user is
reading, using the browser's built-in AI models (the `Summarizer` and the
`LanguageModel` prompt API). The user asks questions in a popup chat, or uses
context-menu entries on a link, a selection, a page or an image. This project
models the extension's core logic and proves properties of that model:

- **Background** (`src/background.ts`). The service worker stores one pending request per
  context-menu click under a single storage key. It fetches links and images for the popup and
  answers the popup's messages.
- **Content** (`src/content.ts`). The content script reads the page's headings, paragraphs,
  links and images. It also finds the main text block and the text around a selection.
- **ContentExtraction** (`src/utils/contentExtraction.ts`). The popup injects a script into the
  active tab and cleans up what the script returns. It refuses restricted pages.
- **Summarizer** (`src/utils/summarizer.ts`). Availability checks, creation of a summarizer (with a
  retry on minimal options), summaries, and the Feynman-style explanation prompt.
- **PromptApi** (`src/utils/promptApi.ts`). Prompt sessions, image descriptions, the text-only
  fallback, alt text and multi-image analysis.
- **Api** (`src/utils/api.ts`). The chat's answer ladder. This covers the canned fallback answers,
  the question classification, the topic strip and summarising the selected content.
- **ContextMenu** (`src/utils/contextMenu.ts`). The popup-side handler. It picks up the pending
  request, drops a stale one, and turns the request into a prompt.
- **ExtensionValidator** (`src/utils/extensionValidator.ts`). The debug self-checks.
- **App** (`src/App.tsx`). The chat transcript's state transitions.

Supporting modules:
- `Wrappers` provides `Option` and `Result`.
- `Strings` gives JavaScript string semantics: the `\s` class, `trim`, whitespace collapsing,
  clamped `substring`, ASCII case mapping, `indexOf` and `\b` word matching.
- `Dom` treats a document as data.
- `Host` holds the AI hosts and the trace of calls a flow makes.

Each asynchronous flow is a function that returns its result together with the sequence of
calls it made to the browser, the storage or the models (`Traced`). Properties such as "no
image fetch is sent" or "the session is destroyed exactly once" are stated over that trace.

Collaborators are values the model is given. These are the `chrome.*` APIs, `fetch`, the models
and the clock (`now`). Their answers are function-typed fields, so the same question gets the
same answer within one request.

Loops in the source become methods with loop invariants, each proved equal to a specification
function. There are four of them:
- the selector loops in `getMainContent`, `fetchLinkContent` and `extractContentFromPage`;
- the `append` loop in `analyzeMultipleImages`.

State the source keeps in objects becomes classes:
- the storage slot (`Background.PendingSlot`);
- the singleton handler and its registry (`ContextMenu.ContextMenuHandler`,
  `ContextMenu.HandlerRegistry`);
- the chat state (`App.ChatApp`).

Behaviour of the code worth noting:
- `cleanText` and `fetchLinkContent` cut to their cap after trimming. A capped text can
  therefore end in a space. Only a text below the cap is free of trailing whitespace
  (`Content.CleanText`).
- `createPromptSession` spreads the caller's options after the `||` defaults. A caller's
  explicit value therefore wins, even a temperature of `0`.
- `describeImage` and the other prompt flows destroy their session only on success. On an
  error path the session is left alive.
- The topic strip tries the alternatives `explain`, `clarify`, `what`, `how` and `why` in
  that order. A longer alternative such as `what is` is never reached, so "What is a
  closure" becomes "is a closure" (`Api.WhatIsKeepsIs`).

## Model

| member | source | states |
|---|---|---|
| Background.LinkRecord | src/background.ts:63-81 | a link click stores a request exactly when there is a link; it keeps the link, the selection (or "") and the click time |
| Background.SelectionRecord | src/background.ts:83-102 | a selection click stores a request exactly when text is selected, with the tab's URL and title defaulted to "" |
| Background.PageRecord | src/background.ts:104-119 | a page click always stores a page request with the click time; the URL and the title are the tab's when truthy and "" otherwise |
| Background.ImageRecord | src/background.ts:121-139 | an image click stores a request exactly when the click has a source URL; it keeps that URL and the tab's URL and title defaulted to "" |
| Background.ClickRecord | src/background.ts:38-61 | a click stores a record exactly when the tab has an id and the item is one of the four entries with its payload present; the record carries the click time, only a link record lacks a page URL, and each kind keeps its own payload |
| Background.PendingSlot.constructor | src/background.ts:38-61 | storage starts with no pending request |
| Background.PendingSlot.OnClicked | src/background.ts:38-61 | a click that yields a record overwrites the slot; any other click leaves it unchanged |
| Background.PendingSlot.Get | src/background.ts:160-165 | reading the slot returns what is stored |
| Background.PendingSlot.Clear | src/background.ts:167-172 | clearing empties the slot |
| Background.LaterClickOverwrites | src/background.ts:38-61 | with one storage key, a later storing click replaces any unconsumed earlier one and carries the later time |
| Background.FormatLinkContentEndsWithContent | src/background.ts:231 | the formatted link text has a fixed overhead and ends with the extracted content |
| Background.LinkContent | src/background.ts:175-240 | a network failure and an HTTP error both reject with the link-failure prefix; success happens exactly on an ok response; the text is the title, the description and the cleaned main text, which is single-spaced, starts with a non-space and is at most 5000 characters |
| Background.FetchLinkContent | src/background.ts:175-240 | the selector loop gives the same result as the specification function LinkContent |
| Background.FetchImageContent | src/background.ts:242-270 | only an ok response whose MIME type (header, or image/png) starts with image/ yields data, and the data are the body bytes |
| Background.OnMessage | src/background.ts:143-173 | the listener keeps the channel open exactly for the four known types; each reply is the matching operation's result; only CLEAR_PENDING_REQUEST changes the slot |
| Content.CleanText | src/content.ts:172-177 | the result is single-spaced, starts with a non-space, has at most 3000 characters and is a prefix of the normalised text; it loses no word except those cut at the cap; below the cap it is the whole normalised text |
| Content.EscapeRegExp | src/content.ts:179-181 | escaping never shortens and leaves a text with no special characters unchanged; a single character becomes a backslash and itself when special, and stays as it is otherwise |
| Content.EscapeAppend | src/content.ts:179-181 | the replace is global and per character: the escape of a concatenation is the concatenation of the escapes, so with the one-character case every character's output is fixed |
| Content.UnescapeEscape | src/content.ts:179-181 | escaping is invertible: removing the backslashes gives back the original |
| Content.EscapedSpecialsArePrefixed | src/content.ts:179-181 | every special character appears in the escaped text right after a backslash |
| Content.BlockTexts | src/content.ts:86-88 | the candidates are exactly the trimmed texts of the `p` and `div` elements that are longer than 50 characters: each one is that long and is the trimmed text of one of those elements, and every such element's text is among them |
| Content.InsertByLength | src/content.ts:89 | inserting adds exactly the one element (as a multiset) |
| Content.InsertKeepsDescending | src/content.ts:89 | inserting into a list sorted by decreasing length keeps it sorted |
| Content.SortByLength | src/content.ts:89 | the sort is a permutation of its input, ordered by decreasing length |
| Content.LargestBlocksAreLongest | src/content.ts:86-91 | the fallback keeps at most five blocks, each longer than 50 characters and the trimmed text of a `p` or `div` element of the page, and no block left out is longer than one kept |
| Content.GetMainContent | src/content.ts:63-92 | the selector loop agrees with the specification function MainContent; a selector hit is capped at 3000 characters |
| Content.Headings | src/content.ts:38-41 | every heading has text and is the level and trimmed text of an h1-h3 element, and every h1-h3 element with non-empty trimmed text is included |
| Content.HeadingsInDocumentOrder | src/content.ts:38-41 | the headings keep document order: those of the first k elements come before those of the rest |
| Content.Paragraphs | src/content.ts:42 | every paragraph is longer than 20 characters and is the trimmed text of a `p` element, and every such trimmed paragraph is included |
| Content.ParagraphsInDocumentOrder | src/content.ts:42 | the paragraphs keep document order: those of the first k `p` elements come before those of the rest |
| Content.Links | src/content.ts:43-47 | every link has text and an href and is read from an `a[href]` element, and every such link is included |
| Content.LinksInDocumentOrder | src/content.ts:43-47 | the links keep document order: those of the first k elements come before those of the rest |
| Content.Images | src/content.ts:48-52 | every image has a non-empty alt and is read from an `img[alt]` element, and every such image is included |
| Content.ImagesInDocumentOrder | src/content.ts:48-52 | the images keep document order: those of the first k elements come before those of the rest |
| Content.GetPageContent | src/content.ts:31-61 | the page snapshot equals PageContentOf and every list keeps only its filter's survivors |
| Content.Window | src/content.ts:114-121 | the context before and after a selection is at most 200 characters each, and empty when the selection is not found |
| Content.GetSelectionContext | src/content.ts:94-132 | there is no context exactly when nothing non-blank is selected; otherwise it holds the trimmed text and the windows around its first occurrence in the container |
| Content.OnMessage | src/content.ts:7-29 | the content script answers exactly its three message types, each with the matching result |
| ContentExtraction.BlankRunEndsAtLastNewline | src/utils/contentExtraction.ts:105 | after a newline, the greedy `\s*\n` ends at the last newline of the following whitespace run: what it takes ends in a newline, and the rest of the run holds none |
| ContentExtraction.ReplaceBlankLines | src/utils/contentExtraction.ts:105 | the blank-line replace never lengthens the text (what it removes is stated by ReplaceBlankLinesLeavesNone) |
| ContentExtraction.ReplaceBlankLinesLeavesNone | src/utils/contentExtraction.ts:105 | after the global replace no newline is followed by whitespace that holds another newline, and whitespace without a newline at the head of the text is kept as it is |
| ContentExtraction.ReplaceBlankLinesWithoutNewline | src/utils/contentExtraction.ts:105 | the blank-line rule changes nothing in a text without a newline |
| ContentExtraction.CleanupIsNormalize | src/utils/contentExtraction.ts:103-106 | collapse, blank-line removal and trim together equal the normalisation, which has no newline |
| ContentExtraction.CleanPageText | src/utils/contentExtraction.ts:103-111 | the cleaned text has no newline and at most 10000 characters plus the ellipsis; it is the normalised text, or its first 10000 characters plus "..." |
| ContentExtraction.RawMainText | src/utils/contentExtraction.ts:89-99 | the text of the first selector in order that matches, when it is non-empty; otherwise the body's text; nothing only when there is no body |
| ContentExtraction.ExtractedFromPage | src/utils/contentExtraction.ts:69-122 | the first matching selector, else the body, supplies the text, which is then cleaned |
| ContentExtraction.ExtractContentFromPage | src/utils/contentExtraction.ts:69-122 | the selector loop agrees with ExtractedFromPage |
| ContentExtraction.ExtractPageContent | src/utils/contentExtraction.ts:18-63 | a script is injected exactly once when the tab passes the gate (scripting present, id, URL, not restricted) and never otherwise; content is returned exactly when every step succeeds, with the tab's title, URL and host |
| Summarizer.CheckSummarizerAvailability | src/utils/summarizer.ts:39-50 | the result is unavailable exactly when the API is missing, rejects or says so; otherwise it is the API's answer |
| Summarizer.CallerOptionsOverrideDefaults | src/utils/summarizer.ts:55-80 | each create option is the caller's value when given and the documented default otherwise; a monitor is attached exactly when progress is wanted |
| Summarizer.LanguagePreMergeIsInvisible | src/utils/summarizer.ts:141-146 | the language defaults that generateSummary merges first do not change what create receives |
| Summarizer.CreateSummarizer | src/utils/summarizer.ts:55-128 | a present API is asked at most twice; when the probe says unavailable the only attempt uses the minimal options; otherwise the first attempt uses the merged options, and exactly when it fails there is exactly one retry with the minimal options |
| Summarizer.GenerateSummary | src/utils/summarizer.ts:133-169 | a summary is returned exactly when creation and summarize both succeed; every failure carries the summary-failure prefix; the summarizer is destroyed once on success and never otherwise; it creates summarizers only through createSummarizer |
| Summarizer.NoDestroyWhileCreating | src/utils/summarizer.ts:55-128 | creation never destroys a summarizer |
| Summarizer.ProgrammingTemplateShape | src/utils/summarizer.ts:187-200 | the programming template starts with its own head and contains the topic |
| Summarizer.ContextTemplateShape | src/utils/summarizer.ts:201-216 | the context template starts with its own head and contains both topic and context |
| Summarizer.FeynmanText | src/utils/summarizer.ts:174-231 | the programming template is chosen exactly for a programming topic with under 200 characters of context; the text always contains the topic, and the context when it is used |
| Summarizer.GenerateFeynmanExplanation | src/utils/summarizer.ts:174-231 | it succeeds exactly when a summarizer is created and the summary of the Feynman text succeeds, and then returns that summary; failures carry the prefix; every non-minimal creation asks for a long, markdown tl;dr |
| Summarizer.CreateAttemptsOfSummary | src/utils/summarizer.ts:133-169 | every creation attempt of a summary uses either the minimal or the merged options |
| PromptApi.CheckPromptApiAvailability | src/utils/promptApi.ts:65-80 | the result is unavailable exactly when the model is missing, rejects or says so; only model calls are made |
| PromptApi.CheckMultimodalAvailability | src/utils/promptApi.ts:85-105 | the same, for the image-input query |
| PromptApi.SessionOptionsMerge | src/utils/promptApi.ts:110-182 | a session takes the caller's temperature and top-k when given, else the model's defaults, and a monitor exactly when progress is wanted |
| PromptApi.CreatePromptSession | src/utils/promptApi.ts:126-182 | a session is created only past a positive availability check, with the merged options; creation never destroys or appends |
| PromptApi.ImageErrorMessage | src/utils/promptApi.ts:248-258 | unsupported-type errors take priority over rate-limit errors; any other message gets the failure prefix |
| PromptApi.DescribeImage | src/utils/promptApi.ts:187-260 | a description is the model's answer to the image prompt; errors are mapped by ImageErrorMessage; the session is destroyed exactly on success |
| PromptApi.ImageExtension | src/utils/promptApi.ts:293 | the extension is non-empty and dot-free: for every last `.` with text after it, the lower-cased text after it; the whole URL lower-cased when it has no dot; "unknown" when it ends in a dot |
| PromptApi.ImageName | src/utils/promptApi.ts:294 | the name is non-empty and slash-free: for every last `/` with text after it, the text after it; the whole URL when it has no slash; "image" when it ends in a slash |
| PromptApi.SiteOf | src/utils/promptApi.ts:295 | the site is the page's host name, or "unknown site" without a page URL |
| PromptApi.AskForFallback | src/utils/promptApi.ts:297-316 | it succeeds exactly when the prompt succeeds, and the answer is wrapped in the analysis header and note; failures carry the prefix; destroy happens exactly on success |
| PromptApi.DescribeFallback | src/utils/promptApi.ts:265-322 | it succeeds exactly when the text-only probe passes, the session is created, the site is known and the prompt about the name, extension and site succeeds; the answer is then wrapped; an unavailable model fails with its prefix and creates nothing |
| PromptApi.GenerateAltText | src/utils/promptApi.ts:327-375 | alt text is the model's answer to the alt-text instruction; failures carry the prefix; destroy happens exactly on success |
| PromptApi.Turns | src/utils/promptApi.ts:404-414 | the k-th appended turn is the labelled k-th image |
| PromptApi.AnalyzeMultipleImages | src/utils/promptApi.ts:380-432 | on success every image was appended once, in order, before the analysis prompt; failures carry the prefix; destroy happens exactly on success |
| Api.GetFallbackResponse | src/utils/api.ts:95-123 | the first matching concept (JavaScript, HTML, CSS, React, API) picks the canned answer, case-insensitively; otherwise the generic answer quotes the question and appends the technical issue when there is one |
| Api.CapitalTriggersApi | src/utils/api.ts:111-113 | substring matching sends "Capital city?" to the API answer |
| Api.FirstKeyword | src/utils/api.ts:62 | the stripped keyword is the first alternative, in regex order, that the question starts with (ignoring case) |
| Api.StripTopic | src/utils/api.ts:62 | the topic is the trimmed question without its first matching keyword, and never longer than the question |
| Api.WhatIsKeepsIs | src/utils/api.ts:62 | "What is a closure" becomes "is a closure", because "what" wins over "what is" |
| Api.KeywordInsideWord | src/utils/api.ts:62 | without a word boundary, "However" loses "how" |
| Api.OnlyOneKeywordStripped | src/utils/api.ts:62 | only one keyword is removed: "explain explain" becomes "explain" |
| Api.ExplanationContext | src/utils/api.ts:55-60 | the context is the selection or page text; the programming stub replaces it exactly for a programming question with under 100 characters |
| Api.BasicContextAnswer | src/utils/api.ts:28-46 | without page content the tab is queried first; a failed query gives the fallback with its fixed reason; otherwise the answer is a summary, or the fallback on failure |
| Api.PageAnswer | src/utils/api.ts:49-80 | explanation and programming questions go to the Feynman explanation, the rest to a page summary; a failure yields the fallback with the error message |
| Api.FetchAIResponse | src/utils/api.ts:8-92 | an unavailable summarizer gives the plain fallback with no further calls; otherwise the answer is always either a model summary or a fallback response, never an error |
| Api.SummarizeSelectedContent | src/utils/api.ts:126-153 | no page and blank content are separate errors; otherwise success is the summary of the selection or text, with the domain in the context |
| ContextMenu.FreshRequest | src/utils/contextMenu.ts:36-54 | a stored request is returned unless it is older than 30 seconds; a zero timestamp never expires |
| ContextMenu.AgeBoundary | src/utils/contextMenu.ts:42-43 | a request exactly 30000 ms old is still served, one a millisecond older is dropped |
| ContextMenu.ContextMenuHandler.GetPendingRequest | src/utils/contextMenu.ts:36-54 | an unreachable background yields nothing and changes nothing; otherwise the fresh request is returned and only a stale one is cleared |
| ContextMenu.ContextMenuHandler.ClearPendingRequest | src/utils/contextMenu.ts:59-65 | clearing empties the slot |
| ContextMenu.HandlerRegistry.constructor | src/utils/contextMenu.ts:26-31 | there is no handler until the first request |
| ContextMenu.HandlerRegistry.GetInstance | src/utils/contextMenu.ts:26-31 | the first call creates the handler and every later call returns the same one |
| ContextMenu.GetInstanceTwice | src/utils/contextMenu.ts:26-31 | two calls give the same instance |
| ContextMenu.ActiveTabId | src/utils/contextMenu.ts:124-212 | a tab id is known exactly when the query returns a first tab with an id, and it is that tab's id |
| ContextMenu.TabCalls | src/utils/contextMenu.ts:124-212 | the tab query comes first, followed by one message of the given type to the first tab exactly when the query returns a tab with an id |
| ContextMenu.TabCallsAreTabCalls | src/utils/contextMenu.ts:124-212 | messaging the active tab never calls the model or fetches a link |
| ContextMenu.LinkPrompt | src/utils/contextMenu.ts:90-122 | the link prompt starts with its head and contains the URL and the fetched content |
| ContextMenu.LinkFallbackPrompt | src/utils/contextMenu.ts:90-122 | the fallback prompt starts with its head and contains the URL |
| ContextMenu.ProcessLinkRequest | src/utils/contextMenu.ts:90-122 | a missing URL is an error with no calls; otherwise the content is fetched, and a failed fetch degrades to the fallback prompt; no model is called |
| ContextMenu.SelectionPrompt | src/utils/contextMenu.ts:124-162 | the prompt quotes the selected text |
| ContextMenu.ProcessSelectionRequest | src/utils/contextMenu.ts:124-162 | missing text is an error with no calls; otherwise the prompt uses the tab's context when it is obtained; no model call and no link fetch |
| ContextMenu.HeadingLines | src/utils/contextMenu.ts:188 | one line per heading: its upper-cased level and text |
| ContextMenu.KeyParagraphs | src/utils/contextMenu.ts:194 | the first three paragraphs of the snapshot, or all of them when there are fewer; the snapshot lists them in document order (Content.ParagraphsInDocumentOrder) |
| ContextMenu.PageFallbackPrompt | src/utils/contextMenu.ts:205-210 | the fallback names the page's title, else its URL |
| ContextMenu.PageContentOf | src/utils/contextMenu.ts:166-180 | page content is available exactly when the tab answers, and it is the content script's snapshot |
| ContextMenu.ProcessPageRequest | src/utils/contextMenu.ts:164-212 | a page request always succeeds: the page prompt when the content script answers, else the fallback; it makes only tab calls |
| ContextMenu.FallbackFor | src/utils/contextMenu.ts:226-262 | a failed description falls back to the text-only description, with its prefix on failure |
| ContextMenu.DescribeFetched | src/utils/contextMenu.ts:245-261 | a fetched image's description is the answer; a failed description falls back to the context-based one; the earlier calls stay in front |
| ContextMenu.MultimodalAttempt | src/utils/contextMenu.ts:233-261 | the image is requested from the background first; a failed fetch goes to the context-based description and a fetched image is described |
| ContextMenu.ProcessImageRequest | src/utils/contextMenu.ts:214-267 | a missing image URL is an error with no calls; without multimodal support only the text fallback runs; otherwise the result is exactly the multimodal attempt (image fetch first, every failure falling back); errors are the missing-image message or carry the description prefix; no link is ever fetched |
| ContextMenu.ProcessRequest | src/utils/contextMenu.ts:70-88 | each kind goes to its own handler and any other kind is an "Unknown request type" error; only a link request fetches links and only an image request calls the model |
| ContextMenu.Excerpt | src/utils/contextMenu.ts:272-285 | text of up to 50 characters is shown whole, longer text is cut to 50 plus "..." |
| ContextMenu.GetActionMessage | src/utils/contextMenu.ts:272-285 | each of the four kinds gets its own status line, naming the link URL, the excerpt, or the page's title or URL; any other type gets "Processing your request..." |
| ExtensionValidator.ValidateExtensionContextAsWritten | src/utils/extensionValidator.ts:6-40 | as written, a browser without a chrome global throws; in every other case the errors are ContextErrors |
| ExtensionValidator.ValidateExtensionContext | src/utils/extensionValidator.ts:6-40 | the errors are the failing checks' messages in order, and the context is valid exactly when there are none |
| ExtensionValidator.ContextErrors | src/utils/extensionValidator.ts:6-40 | at most six errors, each one of the six check messages |
| ExtensionValidator.AbsentChromeReportsAll | src/utils/extensionValidator.ts:10-16 | without chrome every one of the six checks fails |
| ExtensionValidator.ValidExactlyWhenComplete | src/utils/extensionValidator.ts:6-40 | valid exactly when runtime, tabs, scripting and permissions exist and the runtime has an id |
| ExtensionValidator.NoRuntimeMeansNoId | src/utils/extensionValidator.ts:15-34 | a missing runtime is reported, and so is the missing id after it |
| ExtensionValidator.TestTabAccess | src/utils/extensionValidator.ts:68-108 | the guards fire in order (query error, no tab, no id, no URL, restricted page); access succeeds exactly when all pass, with the tab's summary |
| ExtensionValidator.ExtractionRestrictedIsValidatorRestricted | src/utils/extensionValidator.ts:87-88 | every page the popup refuses to script, the self-check refuses too |
| ExtensionValidator.MozExtensionOnlyHere | src/utils/extensionValidator.ts:87-88 | the converse fails: moz-extension:// pages are refused only by the self-check |
| App.ChatApp.constructor | src/App.tsx:12-22 | the chat starts with the greeting alone and is not loading |
| App.ChatApp.HandlePendingContextMenuRequests | src/App.tsx:46-113 | with no fresh request the transcript and loading flag do not change, and a reachable background's slot is left empty (a stale record is cleared); otherwise the transcript grows by exactly one message (the answer or the error text), the greeting is kept, loading ends, and the slot is cleared only after the prompt succeeds |
| App.ChatApp.HandleSendMessage | src/App.tsx:115-165 | the user's message and then exactly one answer are appended, and loading ends |
| App.ChatApp.HandleSummaryGenerated | src/App.tsx:167-179 | one assistant message is appended and the loading flag is left as it was |

## Left out

- The context-menu entries created in `onInstalled` (`src/background.ts:4-35`) are not modelled. They are a registration with the browser, with no logic.
- `highlightText` in the content script is not modelled. It edits the live DOM through a tree walker and range objects.
- Console logging, `logExtensionInfo`, `checkPermissions` and the placeholder `summarizeContent` are not modelled. They have no effect on results.
- Message ids and timestamps of chat messages are dropped. `Date.now()` is a parameter (`now`).
- Storage and messaging failures are modelled only where the code reacts to them: an unreachable background, a rejected tab query, a failed script injection.
- `ArrayBuffer` serialisation of images is left out. Image data are a byte sequence.
- App.ChatApp.HandlePendingContextMenuRequests: the asynchronous `setState` updates are modelled in sequence. Interleavings with other events in the popup are not captured.
- Download-progress callbacks are reduced to whether a monitor is attached. Progress values, which are floating point, are not modelled.
- Thrown values that are not `Error` objects are not modelled. Every rejection carries a message.
- String lengths count characters, not UTF-16 code units. Case mapping covers ASCII letters only.
- Content.CleanText: a text cut at the cap may end in whitespace. Only an uncut text is stated to have none, because the source trims before cutting.
- Content.SortByLength: the stability of the sort for equal lengths is not stated.
- App.ChatApp.HandleSendMessage: the catch branch's error text is not modelled, because `fetchAIResponse` never rejects.
- The test utilities and React components other than `App` are not part of this model.

## Findings

| source | as written | input that shows it | evidently intended | confidence | as-written member | corrected member |
|---|---|---|---|---|---|---|
| src/utils/extensionValidator.ts:10-16 | after `typeof chrome === 'undefined'` records the first error, the next check reads `chrome?.runtime`, which throws a ReferenceError when `chrome` was never declared | a page without the `chrome` global (`ChromeGlobal.Undeclared`) | report all six errors and return an invalid result | high; not executed | ExtensionValidator.ValidateExtensionContextAsWritten | ExtensionValidator.ValidateExtensionContext |
