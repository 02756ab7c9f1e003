# react-embeddable-widget: network and click monitors, log buffers and panel

This project models, in Dafny, the behaviour of an embeddable diagnostic
widget. The widget does four things:

- It wraps the page's `fetch` and `XMLHttpRequest` and turns every observed
  request into a `NetworkLog` event. A url on the ignore list is passed
  straight through, and body previews are cut at a configured limit.
- It listens to clicks and turns each click on an element into a `ClickLog`.
  The log carries the element's tag, attributes and normalised text, plus a
  short CSS selector built by walking up the element's ancestors.
- It keeps both kinds of log in two lists capped at 200 entries, newest first.
- It shows the network list in a panel with filters (method, transport,
  status bucket, url text), a strip of recent durations, a status label per
  request and per-request detail toggles.

The modules follow the source files:

| module | file | models |
|---|---|---|
| `Text` | `text.dfy` | the JavaScript string operations the code relies on. These are `trim`, `toLowerCase`/`toUpperCase`, `split(/\s+/)`, `replace(/\s+/g, ' ')`, `includes`, `indexOf`, `split`/`join` and number rendering. |
| `Events` | `events.dfy` | the `NetworkLog` and `ClickLog` records and JavaScript truthiness of optional strings |
| `NetworkMonitor` | `network_monitor.dfy` | the pure logic of `src/widget/lib/network-monitor.ts`: the ignore test, the preview limit and truncation, method and url resolution, request headers, `FormData` text, the parser of the XHR response-header blob, and the event a wrapped `fetch` call emits |
| `XhrWrapper` | `xhr_wrapper.dfy` | the wrapped `XMLHttpRequest` as a class (`PatchedXhr`). Its closure state (method, url, start time, header map) is updated by `open`, `setRequestHeader` and `send`. Each terminal event runs `finalize`. |
| `MonitorLifecycle` | `monitor_lifecycle.dfy` | the process-wide `monitorActive` flag and the two window slots, updated by `startNetworkMonitor` and its `stop` |
| `ClickMonitor` | `click_monitor.dfy` | `buildSelector`: a loop over the ancestor chain, proved against a functional specification. It also models the text normalisation and clipping, and the click handler's guards and event. |
| `WidgetContainer` | `widget_container.dfy` | the container's state as a class with the two capped lists, and the options it starts both monitors with |
| `WidgetPanel` | `widget_panel.dfy` | the panel's filter and cap, the duration strip and its maximum, the status and button labels, and the details toggle |

Browser objects are replaced by plain data:

- A `Request` is its method, url, header list and the text its body would
  read as.
- A response is its status, `ok` flag, header list and body text.
- A DOM element is a record holding its tag name, its attributes as optional
  strings and the tag names of its previous siblings. An ancestor chain is a
  sequence of such records, innermost first.
- Time readings, ids and node identities are parameters.

Two behaviours of the XHR wrapper are worth stating, because a reader of the
event type might expect otherwise:

- An XHR transaction can settle more than once. `finalize`
  (src/widget/lib/network-monitor.ts:214-259) has no once-guard, and each
  `send` attaches four listeners that call it
  (src/widget/lib/network-monitor.ts:261-264), so it runs on every terminal
  event the request fires. `PatchedXhr.Dispatch` models that, and
  `SettlesTwice` shows a load followed by an error giving two events with the
  same id.
- An XHR event always carries the status, even next to an error label
  (src/widget/lib/network-monitor.ts:248-251). `XhrEventShape` and
  `TimeoutScenario` state that. For `fetch` the success event carries the
  status and the failure event the error, never both
  (src/widget/lib/network-monitor.ts:147-177), as `FetchEventShape` proves.

## Model

| member | source | states |
|---|---|---|
| NetworkMonitor.MaxChars | src/widget/lib/network-monitor.ts:40 | the preview limit is the configured value when that is non-negative, and 0 when it is absent or negative |
| NetworkMonitor.ShouldIgnoreIff | src/widget/lib/network-monitor.ts:23-31 | a url is ignored exactly when a list is given and some pattern in it occurs in the url at some index; an absent or empty list ignores nothing |
| NetworkMonitor.SomePatternInIff | src/widget/lib/network-monitor.ts:27 | `some` over the patterns holds exactly when one of them is contained in the url |
| NetworkMonitor.Truncate | src/widget/lib/network-monitor.ts:109-110 | the preview is a prefix of the text with length min(text length, limit), and it is flagged truncated exactly when the text is longer than the limit (equivalently, when the preview differs from the text) |
| NetworkMonitor.ResolveTarget | src/widget/lib/network-monitor.ts:51-65 | a `Request` gives its own url and method ("GET" when empty); any other input gives its string form as url and the init's method, or "GET" when that is absent or empty; the method is never empty |
| NetworkMonitor.Collect | src/widget/lib/network-monitor.ts:97-100 | the header record has exactly the names that occur in the entry list |
| NetworkMonitor.CollectLastWins | src/widget/lib/network-monitor.ts:98 | the value kept for a name is that of its last entry |
| NetworkMonitor.FillHeaders | src/widget/lib/network-monitor.ts:97-98 | the loop that fills `headersObj` produces the collected record of its entries |
| NetworkMonitor.ExtractRequestHeaders | src/widget/lib/network-monitor.ts:76-104 | request headers come from a `Request`'s own list, or from init headers given as `Headers`, pairs or a plain object (values put through `String`); there are none without init headers |
| NetworkMonitor.SerializeForm | src/widget/lib/network-monitor.ts:115-118 | the loop pushing `k=v` parts, with `[file]` for a non-string value, and joining them with `&` yields the form text |
| NetworkMonitor.FormTextSplits | src/widget/lib/network-monitor.ts:116-118 | when no name or string value contains `&`, splitting the form text at `&` gives back one part per entry, in order, each starting with its name and `=` |
| NetworkMonitor.ParseHeaderLineShape | src/widget/lib/network-monitor.ts:223-227 | a line yields a pair exactly when its first colon is past index 0 and the text before it is not blank; the name is then non-empty, lower-case and trimmed, and the value trimmed |
| NetworkMonitor.HeaderMapKeys | src/widget/lib/network-monitor.ts:222-229 | the parsed record has exactly the names of the lines that parse |
| NetworkMonitor.HeaderMapLastWins | src/widget/lib/network-monitor.ts:227 | for a name repeated across lines, the last line's value is kept |
| NetworkMonitor.HeaderLineRoundTrip | src/widget/lib/network-monitor.ts:223-227 | writing a trimmed name without a colon and a trimmed value as `Name: Value` parses back to the lower-cased name and the value |
| NetworkMonitor.ParseResponseHeaders | src/widget/lib/network-monitor.ts:219-230 | the loop over lines builds the parsed record when the blob is non-empty, and nothing for an empty blob |
| NetworkMonitor.ErrorText | src/widget/lib/network-monitor.ts:171 | the failure text is never empty, so a failure event always carries an error |
| NetworkMonitor.FetchCall | src/widget/lib/network-monitor.ts:67-69 | a wrapped call hands the original exactly its own arguments and settles as the original did; it emits no event for an ignored url and exactly one otherwise |
| NetworkMonitor.FetchEventShape | src/widget/lib/network-monitor.ts:147-177 | a fetch event has the call's id, timestamp, method, url and request headers; it carries a status and `ok` exactly when the call resolved, and an error exactly when it rejected, never both; a failure has no response headers or body |
| NetworkMonitor.FetchPreviewBounds | src/widget/lib/network-monitor.ts:134-141 | previews exist only with a positive limit and never exceed it; a readable response body is previewed by truncation; with limit 0 there is no preview, but status and headers are still reported |
| NetworkMonitor.FetchRequestPreview | src/widget/lib/network-monitor.ts:83-123 | with a positive limit the request preview is the truncated body text: a readable `Request` body, a non-empty string, the encoded search params or the `k=v` form text; no preview for other bodies |
| NetworkMonitor.IgnoredFetchIsSilent | src/widget/lib/network-monitor.ts:67-69 | an ignored call emits nothing and forwards its arguments unchanged |
| XhrWrapper.ErrorLabel | src/widget/lib/network-monitor.ts:261-264 | load has no error label; error, abort and timeout each have a non-empty one |
| XhrWrapper.XhrEventShape | src/widget/lib/network-monitor.ts:243-257 | an XHR event always has the status; `ok` holds exactly for 2xx statuses; the error is absent exactly for load, and the other paths report status and error together; response headers appear exactly for a non-empty blob, and a body preview exactly with a positive limit, bounded and flagged as for fetch |
| XhrWrapper.PatchedXhr.constructor | src/widget/lib/network-monitor.ts:185-189 | a new wrapper starts with method "GET", an empty url, start time 0 and no headers |
| XhrWrapper.PatchedXhr.Open | src/widget/lib/network-monitor.ts:192-198 | `open` records the method ("GET" when empty) and the url's string form, and forwards the call unchanged |
| XhrWrapper.PatchedXhr.SetRequestHeader | src/widget/lib/network-monitor.ts:202-207 | the value is stored under the lower-cased name, replacing an earlier one, and the call is forwarded unchanged |
| XhrWrapper.PatchedXhr.Send | src/widget/lib/network-monitor.ts:210-267 | for an ignored url nothing is armed; otherwise the clock restarts and one more listener set is attached; the original always receives the untouched arguments |
| XhrWrapper.PatchedXhr.Finalize | src/widget/lib/network-monitor.ts:214-259 | `finalize` builds the settlement event from the wrapper's state at the moment it runs |
| XhrWrapper.PatchedXhr.Dispatch | src/widget/lib/network-monitor.ts:261-264 | a terminal event appends one settlement per attached listener set, in attachment order |
| XhrWrapper.SingleSettlement | src/widget/lib/network-monitor.ts:261-264 | one send and one terminal event give exactly one event, carrying that path's label |
| XhrWrapper.SettlesTwice | src/widget/lib/network-monitor.ts:214 | a load then an error on one request emit two events with the same id; the second reports status 0 beside its error |
| XhrWrapper.TimeoutScenario | src/widget/lib/network-monitor.ts:248-251 | a timed-out POST emits one event labelled "Timed out", with its lower-cased header and status 0 beside the error |
| MonitorLifecycle.Page.constructor | src/widget/lib/network-monitor.ts:33 | a page starts with the host `fetch` and `XMLHttpRequest` and the flag cleared |
| MonitorLifecycle.Page.Start | src/widget/lib/network-monitor.ts:35-47 | while active, a start returns a no-op stop and changes nothing; otherwise it sets the flag, wraps both slots with the configuration from the options, and returns a stop that remembers both originals |
| MonitorLifecycle.Page.Stop | src/widget/lib/network-monitor.ts:275-281 | the returned stop restores both originals and clears the flag; the no-op stop changes nothing |
| MonitorLifecycle.StartThenStop | src/widget/lib/network-monitor.ts:275-281 | a start followed by its own stop leaves the page as it was |
| MonitorLifecycle.StartTwice | src/widget/lib/network-monitor.ts:36 | a second start leaves the first monitor in place, its stop does nothing, and the first stop still restores the page |
| ClickMonitor.SelectorClasses | src/widget/lib/click-monitor.ts:27-31 | the part takes the first two whitespace-separated names of the class attribute, in order, or all of them when there are fewer |
| ClickMonitor.FirstTwo | src/widget/lib/click-monitor.ts:31 | the names kept are the first min(2, n) of the n names, in order |
| ClickMonitor.Dotted | src/widget/lib/click-monitor.ts:32-33 | the class suffix has at least one character per name and starts with `.` when there is a name |
| ClickMonitor.DottedSplit | src/widget/lib/click-monitor.ts:32-33 | splitting the class suffix at `.` after its leading `.` gives back the names, when none contains a `.` |
| ClickMonitor.SameTagCount | src/widget/lib/click-monitor.ts:41-44 | the count is at most the number of siblings and is zero exactly when no previous sibling has the same raw tag name |
| ClickMonitor.NthOfType | src/widget/lib/click-monitor.ts:38-46 | the `:nth-of-type` index is between 1 and the number of previous siblings plus one, and is 1 exactly when no previous sibling has the same tag name |
| ClickMonitor.PartNonEmpty | src/widget/lib/click-monitor.ts:35-47 | every part of a selector is non-empty |
| ClickMonitor.WalkLength | src/widget/lib/click-monitor.ts:24-50 | the walk visits at most five elements and not more than the chain has, at least one when possible; it passes only elements without an id, and it ends at the budget, at the top of the chain, or right after an element with an id |
| ClickMonitor.SelectorParts | src/widget/lib/click-monitor.ts:22-50 | there is one part per element the walk visits |
| ClickMonitor.WalkShape | src/widget/lib/click-monitor.ts:24-36 | a selector has one to five parts; an element with an id alone is a walk of one; stopping short of five parts below the top of the chain means the last element visited has an id |
| ClickMonitor.SelectorPartsOrder | src/widget/lib/click-monitor.ts:47 | the element k steps up the chain contributes the part k places from the end, so parts run outermost first |
| ClickMonitor.SelectorPartsIdStop | src/widget/lib/click-monitor.ts:34-36 | an element with an id is selected by `tag#id` alone; a walk that stopped early ends with the `tag#id` part of the ancestor with the id |
| ClickMonitor.SelectorNonEmpty | src/widget/lib/click-monitor.ts:51 | the selector of an element is never empty |
| ClickMonitor.WalkExhausted | src/widget/lib/click-monitor.ts:24 | a loop that ran out of chain or of budget without meeting an id visited exactly as many elements as the walk specifies |
| ClickMonitor.WalkMetId | src/widget/lib/click-monitor.ts:34-36 | a loop that met an id at step i visited exactly i + 1 elements |
| ClickMonitor.SiblingIndex | src/widget/lib/click-monitor.ts:38-46 | the inner loop over previous siblings computes the `:nth-of-type` index |
| ClickMonitor.ElementPart | src/widget/lib/click-monitor.ts:25-47 | one turn of the walk computes the element's part: `tag#id`, or the tag, classes and sibling index |
| ClickMonitor.BuildSelector | src/widget/lib/click-monitor.ts:20-55 | the `while` loop with `unshift` and `break` computes the specified selector |
| ClickMonitor.NormalizeText | src/widget/lib/click-monitor.ts:77 | the normalised text has exactly the words of the original, in order; it is trimmed, no longer than the original, and has no two whitespace characters in a row and no whitespace other than single spaces |
| ClickMonitor.SliceTo | src/widget/lib/click-monitor.ts:79 | `slice(0, end)` is a prefix of the text, of length `end` for a non-negative end within the text |
| ClickMonitor.ClipText | src/widget/lib/click-monitor.ts:79 | empty text and text within the limit are kept; longer text becomes a prefix of itself followed by `…`, namely the first `maxTextChars` characters plus `…` for a non-negative limit, so at most the limit plus one |
| ClickMonitor.ClickText | src/widget/lib/click-monitor.ts:75-92 | the text is reported exactly when the normalised text is non-empty; it is then non-empty and at most the limit plus one characters long |
| ClickMonitor.Settings | src/widget/lib/click-monitor.ts:58 | a missing `ignoreWithin` falls back to the widget host and a missing `maxTextChars` to 120; given values are kept, including null |
| ClickMonitor.AccessibleName | src/widget/lib/click-monitor.ts:74 | the name is `name`, else `aria-label`, and is absent exactly when both are missing or empty |
| ClickMonitor.NonEmpty | src/widget/lib/click-monitor.ts:69 | an attribute is reported exactly when it is non-empty, and then unchanged |
| ClickMonitor.ClickReported | src/widget/lib/click-monitor.ts:63-65 | a click is reported exactly when its path does not contain the ignored node and its target is an element |
| ClickMonitor.ClickIdentity | src/widget/lib/click-monitor.ts:82-95 | a report carries the given id and timestamp, the click coordinates and the lower-cased tag |
| ClickMonitor.ClickAttributes | src/widget/lib/click-monitor.ts:69-74 | id, role and name appear only when non-empty, and every class is a non-empty run without whitespace |
| ClickMonitor.ClickTextBounds | src/widget/lib/click-monitor.ts:79 | a reported text is non-empty and at most the limit plus one characters long |
| ClickMonitor.ClickSelector | src/widget/lib/click-monitor.ts:81-93 | a report always carries the selector of the clicked element |
| Text.Lower | src/widget/lib/click-monitor.ts:25 | lower-casing keeps the length and leaves no upper-case letter |
| Text.Upper | src/widget/components/widget.tsx:18 | upper-casing keeps the length and leaves no lower-case letter |
| Text.TrimStart | src/widget/lib/click-monitor.ts:28 | dropping leading whitespace leaves a suffix that does not start with whitespace, and everything dropped was whitespace |
| Text.TrimEnd | src/widget/lib/click-monitor.ts:28 | dropping trailing whitespace leaves a prefix that does not end with whitespace, and everything dropped was whitespace |
| Text.Trim | src/widget/lib/click-monitor.ts:28 | `trim`, both of the above in turn, neither starts nor ends with whitespace and is no longer than its input |
| Text.CollapseSpaces | src/widget/lib/click-monitor.ts:77 | the result has no whitespace other than single spaces and no two in a row, is no longer than the input, is empty only for empty input, and starts and ends with whitespace exactly when the input does |
| Text.WordsCollapse | src/widget/lib/click-monitor.ts:77 | replacing each whitespace run by one space keeps the words, in order |
| Text.WordsTrim | src/widget/lib/click-monitor.ts:28-30 | trimming before splitting on whitespace changes no word |
| Text.Words | src/widget/lib/click-monitor.ts:70-72 | splitting on whitespace and dropping empty strings gives non-empty pieces without whitespace |
| Text.WordsJoin | src/widget/lib/click-monitor.ts:70-72 | splitting class names joined by single spaces gives the names back |
| Text.ContainsIff | src/widget/lib/network-monitor.ts:27 | `includes` holds exactly when the pattern occurs at some index |
| Text.IndexOf | src/widget/lib/network-monitor.ts:223 | `indexOf` finds the first occurrence of the character, or -1 when there is none |
| Text.Split | src/widget/lib/network-monitor.ts:222 | splitting gives at least one piece, and no piece contains the separator |
| Text.SplitJoin | src/widget/lib/network-monitor.ts:118 | splitting the joined parts at the separator gives the parts back when none contains it |
| Text.JoinSplit | src/widget/lib/network-monitor.ts:222 | joining the pieces of a split with the separator gives back the original text |
| Text.NatToString | src/widget/components/widget.tsx:265 | a number renders as at least one decimal digit, without leading zeros |
| Text.ParseNatToString | src/widget/components/widget.tsx:265 | reading the rendered digits back gives the number |
| Text.Reverse | src/widget/components/widget.tsx:41 | `reverse` keeps the length |
| WidgetContainer.CappedPrepend | src/widget/components/widget-container.tsx:19-23 | the new entry comes first, then the previous entries in order; the list grows by one up to 200 and beyond that only the oldest entries are dropped |
| WidgetContainer.BufferNewestFirst | src/widget/components/widget-container.tsx:17-24 | after any sequence of additions to an empty list, the list holds the latest min(200, n) entries, newest first |
| WidgetContainer.WidgetState.constructor | src/widget/components/widget-container.tsx:12-15 | the widget starts unmounted and closed, with both lists empty |
| WidgetContainer.WidgetState.Mount | src/widget/components/widget-container.tsx:36-38 | mounting changes neither list |
| WidgetContainer.WidgetState.SetOpen | src/widget/components/widget-container.tsx:13 | opening or closing the panel changes neither list |
| WidgetContainer.WidgetState.AddLog | src/widget/components/widget-container.tsx:17-24 | `addLog` puts the capped prepend into the network list, keeps both lists within 200, and leaves the click list alone |
| WidgetContainer.WidgetState.AddClickLog | src/widget/components/widget-container.tsx:27-33 | `addClickLog` does the same for the click list and leaves the network list alone |
| WidgetContainer.WidgetState.ClearLogs | src/widget/components/widget-container.tsx:26 | `clearLogs` empties the network list only |
| WidgetContainer.WidgetState.ClearClickLogs | src/widget/components/widget-container.tsx:34 | `clearClickLogs` empties the click list only |
| WidgetContainer.WidgetState.NetworkEffect | src/widget/components/widget-container.tsx:40-54 | before mounting the effect does nothing; afterwards it starts the network monitor, which wraps both slots with the widget's configuration, or, when a monitor is already active, leaves both slots as they were and returns the no-op stop |
| WidgetContainer.WidgetNetworkConfigValue | src/widget/components/widget-container.tsx:44-50 | the widget's options resolve to the pattern `/widget.css` and a 500-character limit |
| WidgetContainer.WidgetStylesheetIgnored | src/widget/components/widget-container.tsx:42-48 | a request is ignored exactly when its url contains `/widget.css` |
| WidgetContainer.WidgetClickSettings | src/widget/components/widget-container.tsx:59-67 | clicks inside the widget host are ignored and texts are clipped at 160 characters |
| WidgetContainer.WidgetClicks | src/widget/components/widget-container.tsx:56-69 | clicks whose path passes the widget host are never reported, and a reported text has at most 161 characters |
| WidgetPanel.TransportName | src/widget/components/widget.tsx:19 | the type field is "fetch" exactly for fetch and "xhr" exactly for XHR |
| WidgetPanel.StatusFilterMeaning | src/widget/components/widget.tsx:21-28 | a bucket `Nxx` keeps exactly the logs whose status is from N00 to N99, so a log without a status matches no bucket; `error` keeps exactly the logs with a non-empty error; any other value keeps everything |
| WidgetPanel.KeepLogIff | src/widget/components/widget.tsx:16-31 | a log passes exactly when it passes every set control: the method upper-cased, the transport by name, the status rule, and the url query found in the url ignoring case |
| WidgetPanel.LowerCaseMethodFilterMatchesNothing | src/widget/components/widget.tsx:18-19 | a method filter with a lower-case letter rejects every log |
| WidgetPanel.FilterLogs | src/widget/components/widget.tsx:16-32 | the filter never adds logs |
| WidgetPanel.Filtered | src/widget/components/widget.tsx:15-34 | the panel shows at most 200 logs |
| WidgetPanel.FilterMembers | src/widget/components/widget.tsx:16-32 | a log is kept exactly when it is in the list and the filter accepts it |
| WidgetPanel.FilterSubsequence | src/widget/components/widget.tsx:16-32 | the filter keeps the order of the logs |
| WidgetPanel.FilteredShape | src/widget/components/widget.tsx:15-34 | what is shown is an order-preserving selection of accepted logs; it has min(200, number accepted) entries |
| WidgetPanel.NoFiltersShowFirst | src/widget/components/widget.tsx:15-34 | with every control empty, the panel shows the first 200 logs |
| WidgetPanel.RecentDurations | src/widget/components/widget.tsx:36-43 | the strip has min(30, shown) entries |
| WidgetPanel.RecentDurationsOrder | src/widget/components/widget.tsx:38-42 | the strip runs oldest to newest over the latest 30 shown requests, with a missing duration drawn as 0 |
| WidgetPanel.MaxDur | src/widget/components/widget.tsx:44-47 | the maximum is at least 1, at least every duration, and is 1 or one of the durations |
| WidgetPanel.StatusLabelReadsBack | src/widget/components/widget.tsx:258-267 | a non-empty error is shown as is; otherwise a request without a status shows "Pending"; a request with a status shows "Status " and digits that read back as the status, followed by " OK" exactly when `ok` holds |
| WidgetPanel.OpenButtonReadsBack | src/widget/components/widget.tsx:52 | the button reads "Open Widget", with a parenthesised count that reads back as the total exactly when there is at least one log |
| WidgetPanel.Toggle | src/widget/components/widget.tsx:272 | a toggle adds its id to the record |
| WidgetPanel.ToggleOnlyFlipsItsId | src/widget/components/widget.tsx:271-273 | a toggle flips whether its own request is expanded and leaves every other entry as it was |
| WidgetPanel.ToggleTwice | src/widget/components/widget.tsx:272 | toggling the same request twice restores which requests are expanded |

## Left out

- Installing the wrappers is not modelled: replacing `window.fetch` and `window.XMLHttpRequest`, and `.bind` delegation to the originals. A window slot holds a host tag or a wrapper value, and the calls handed to the original are recorded as data.
- Browser APIs are replaced by data:
  - `Request.clone().text()`, `Response.clone().text()` and `Headers.forEach`: a body is the text it would read as, or a marker that reading throws; headers are a list of pairs.
  - `instanceof` checks: a separate variant for each kind of input.
  - `getAllResponseHeaders`: the raw header text is given as a string.
- Time and randomness are parameters: `Date.now()`, `performance.now()` and the `Math.random()` ids. The duration is the difference of two integer clock readings. `Math.round` and floating point are not modelled, and neither is a guarantee that durations are non-negative or ids unique, since both depend on the clock and the random source.
- Async interleaving and event-loop ordering are not modelled. A wrapped `fetch` call is one atomic step from arguments and outcome to emitted events. An XHR terminal event is one `Dispatch` step.
- `try`/`catch` paths that only fire when a browser call throws are not modelled:
  - `buildSelector` returning `''` on an exception;
  - `String(input)` throwing;
  - a header write throwing;
  - the handler's outer `catch`.
  The selector therefore always exists in the model.
- NetworkMonitor.FetchCall: it assumes the event sink returns normally. In the source, the success event is emitted inside the `try` (src/widget/lib/network-monitor.ts:147), so a sink that throws there makes the `catch` (src/widget/lib/network-monitor.ts:164-178) emit a second, failure event and reject the call although the request succeeded. The model's sink is a list of emitted events and cannot throw.
- XhrWrapper.PatchedXhr.SetRequestHeader: the header record is a value. In the source, one `requestHeaders` object per XHR (src/widget/lib/network-monitor.ts:200) is written by `setRequestHeader` (:204) and handed by reference to every settlement event (:253), so a header set after an event was emitted also shows up in that event. Each `XhrWrapper.SettlementEvent` holds a copy of the record as it was at settlement.
- `addEventListener`/`removeEventListener` for clicks and `composedPath()` are not modelled. The path is a given sequence of node identities, and the click listener's registration and stop are outside the model.
- Text.Lower and Text.Upper: case mapping covers ASCII letters only, while JavaScript's `toLowerCase`/`toUpperCase` are Unicode-wide.
- Text lengths count characters; JavaScript counts UTF-16 code units, so the two differ on characters outside the Basic Multilingual Plane.
- The whitespace set is the one JavaScript's `trim` and `\s` use, written out character by character.
- The React wiring is not modelled: hooks, context, rendering and the JSX markup.
- Bar heights in the duration strip (float division and rounding), the click list rendering and the "Showing N of M" text are not modelled.
- The shadow-DOM mounting and stylesheet loading in `src/widget/index.tsx` are not part of this model, and neither is the demo in `src/App.tsx`.
- `src/widget/lib/context.ts` contributes only the two record shapes, in `Events`.
- A null or non-numeric `maxTextChars` or `maxResponseChars`, or a non-numeric status, is outside the model's integer types. For `maxResponseChars` (src/widget/lib/network-monitor.ts:40) this means: NaN turns body capture off, because `maxChars > 0` is false; a fractional limit such as 2.5 keeps `slice(0, 2.5)`, i.e. two characters, and flags texts longer than 2.5. `NetworkMonitor.MaxChars` takes an integer or nothing.
