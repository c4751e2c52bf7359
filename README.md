# Rangeway research search page, modelled in Dafny

This project models the search page script `assets/js/app.js` of the
Rangeway research site:

- A query is trimmed. A blank query is ignored. Any other query is POSTed
  as `{message}` to the research webhook.
- While the request runs, the page shows a loading panel.
- When the request ends, the page shows either the results panel or the
  error panel.
- The results panel has four regions:
  - a summary;
  - a grid of source cards;
  - a grid of insight cards from five fixed lists;
  - a list of "Rangeway implications".

The model has six modules:

- `Wrappers`: `Option` and `Result`.
- `JsValues`: the JSON values a response decodes to, plus the JavaScript
  rules the page relies on:
  - truthiness;
  - reading a property;
  - `?.length`;
  - the TypeErrors thrown by reading through `null` or by calling a method
    that is missing.
- `JsText`:
  - `trim()` over the ECMAScript white-space set;
  - `split('\n')` and `join`;
  - the `filter(line => line.trim())` of blank lines;
  - the bullet-stripping `replace(/^[-•*]\s*/, '')`;
  - the decimal text of a status code.
- `Rendering`: the pure shaping rules of `displayResults`, each a function
  with its properties proved as postconditions or lemmas:
  - which value is the payload;
  - the summary default;
  - source cards and their defaults;
  - insight cards;
  - implications;
  - `formatCategory`.

  Each region is a `Stage`. A stage either completes, or stops at the
  TypeError the browser would throw and keeps what it had already
  appended. `Display` runs the stages in the page's order.
- `Dispatch`:
  - the request a query produces;
  - the `Search failed: <status>` message;
  - the error-panel wording;
  - `Settle`, which says how a finished request ends the search.
- `SearchPage`: class `Page`. Its fields are:
  - the three panels' `active` flags;
  - the button's `disabled` flag and label;
  - the error panel's text;
  - the four regions;
  - the log of requests sent.

  The display functions are methods that set these fields.
  `displayResults`'s `forEach` loops are `while` loops. Each method is
  proved against the `Rendering`/`Dispatch` function that specifies it.
  `PerformSearch` is proved to leave the page exactly as `Settle`
  describes, and to keep the page invariant `Valid()`:
  - at most one panel is shown;
  - the button is disabled exactly while loading;
  - the error panel holds `Error: … Please try again.` while it is shown.

Three things outside the page are inputs to the model:

- the outcome of `fetch` and `response.json()` (a `Delivery`);
- `JSON.parse` (a function `parse` from text to an optional value);
- the engine's wording of a TypeError's message (a function `describe`).

## Model

| member | source | states |
|---|---|---|
| JsValues.LengthTruthyIffNonEmpty | assets/js/app.js:117-131 | the `?.length` test of a string or array passes exactly when it is non-empty |
| JsText.Trim | assets/js/app.js:33 | `trim()` gives the empty string exactly for a blank query, and otherwise text that neither starts nor ends with white space |
| JsText.TrimIsInfix | assets/js/app.js:33 | the trimmed query is a contiguous piece of the input with only white space cut off at either end |
| JsText.Split | assets/js/app.js:141 | `split('\n')` always gives at least one piece, and no piece contains a line feed |
| JsText.JoinSplit | assets/js/app.js:141 | joining the pieces of a split with the separator gives back the original text |
| JsText.SplitJoin | assets/js/app.js:141 | splitting a join of line-feed-free lines gives back exactly those lines |
| JsText.NonBlank | assets/js/app.js:141 | the filter keeps exactly the lines that are not blank |
| JsText.NonBlankAppend | assets/js/app.js:141 | the filter keeps the lines' order (it distributes over concatenation) |
| JsText.StripMarker | assets/js/app.js:148 | the result is a suffix of the line; something is removed exactly when the line starts with `-`, `•` or `*`, and then only that one marker and the white space after it |
| JsText.StripOnlyOneMarker | assets/js/app.js:148 | a marker, white space, then text loses exactly the marker and the white space, even when the text starts with another marker |
| JsText.Decimal | assets/js/app.js:49 | a status is written as decimal digits without leading zeros |
| JsText.DecimalRoundTrip | assets/js/app.js:49 | the decimal text reads back as the status it came from |
| Rendering.EscapeHtml | assets/js/app.js:203-208 | `escapeHtml` gives the empty string exactly for a falsy value, and otherwise the escaped text of that value |
| Rendering.Normalize | assets/js/app.js:86-95 | the payload is the parsed `output` string when it parses, the whole body when parsing fails or `output` is falsy, `output` itself when it is truthy and not a string; a null body is a TypeError reading `output` |
| Rendering.EnvelopeRoundTrip | assets/js/app.js:88-91 | an envelope whose `output` holds a parseable serialisation of a payload normalises to that payload, whatever else it carries |
| Rendering.BareBodyIsPayload | assets/js/app.js:86-89 | a body without a truthy `output` is its own payload |
| Rendering.SummaryOf | assets/js/app.js:98-102 | the summary is `search_summary` when truthy and the fixed sentence otherwise, so it is never falsy |
| Rendering.FormatCategory | assets/js/app.js:192-201 | the five known categories get their labels; any other value is shown unchanged; a truthy category never gives a falsy label |
| Rendering.CategoryLabelsDistinct | assets/js/app.js:193-199 | different known categories have different labels |
| Rendering.CreateSourceCard | assets/js/app.js:161-176 | category defaults to `trends` (label `Trends`), title to `Source`, snippet to nothing and otherwise holds `source.snippet`; the link appears exactly for a truthy `url`; a null entry is a TypeError reading `category` |
| Rendering.SourcesStage | assets/js/app.js:104-110 | when `results` is an array, card i is made from entry i; all entries get a card exactly when none is null; otherwise the cards stop at the first null entry; no cards when `results` is no array |
| Rendering.SlotOutcomeOf | assets/js/app.js:117-131 | a slot emits a card exactly when its list is a non-empty array; it throws on `map` exactly when the value is not an array but has a truthy `length` |
| Rendering.InsightsFromSlots | assets/js/app.js:113-132 | every card comes from a slot that emits it, the cards follow the fixed slot order without repeats, so there are at most five |
| Rendering.InsightsFaultIff | assets/js/app.js:113-132 | the insights stop exactly when some slot throws, and the error is the missing `map` |
| Rendering.InsightsComplete | assets/js/app.js:113-132 | when no slot throws, every slot with a non-empty array has its card in the grid |
| Rendering.InsightsStayFailed | assets/js/app.js:113-132 | once a slot has thrown, the later slots change nothing |
| Rendering.InsightsStage | assets/js/app.js:113-132 | no cards unless `research_insights` is truthy, and never more than five |
| Rendering.StripItemsPrefix | assets/js/app.js:145-151 | the items are the leading string items with their bullets stripped, in order |
| Rendering.StripItemsFault | assets/js/app.js:145-151 | every item is appended exactly when all are strings; otherwise the list stops at the first non-string with its TypeError on `replace` |
| Rendering.StripItemsStayFailed | assets/js/app.js:145-151 | once an item has thrown, the items after it are never looked at |
| Rendering.ImplicationLines | assets/js/app.js:140-142 | the lines of an implications string are non-blank strings without line feeds |
| Rendering.ImplicationsStage | assets/js/app.js:134-157 | a falsy value gives the single default item; a string gives one stripped item per non-blank line; an array gives its stripped items; any other truthy value gives nothing |
| Rendering.ImplicationsPerLine | assets/js/app.js:139-142 | text made of lines yields one item per non-blank line, in order, with its bullet stripped |
| Rendering.DisplayOutcome | assets/js/app.js:85-158 | a null body changes no region; when nothing throws, the regions hold exactly what the four stages give for the normalised payload |
| Dispatch.SearchRequest | assets/js/app.js:32-46 | no request exactly for a blank query; otherwise a POST whose message is exactly the trimmed, non-empty query to the webhook with a JSON content type |
| Dispatch.StatusMessage | assets/js/app.js:48-50 | the message is `Search failed: ` followed by the status in decimal without leading zeros, which reads back as the status |
| Dispatch.StatusMessageInjective | assets/js/app.js:49 | different statuses give different messages |
| Dispatch.ErrorText | assets/js/app.js:73 | the error panel reads `Error: `, then the message, then `. Please try again.` |
| Dispatch.StatusErrorText | assets/js/app.js:48-73 | a failed status shows `Error: Search failed: <status>. Please try again.` |
| Dispatch.ServerErrorText | assets/js/app.js:48-73 | status 500 shows `Error: Search failed: 500. Please try again.` |
| Dispatch.SettleOutcomes | assets/js/app.js:39-57 | a rejected fetch, a non-ok status or an undecodable body shows its message over unchanged regions; the results panel is reached exactly when an ok body decodes and displays without a TypeError |
| Dispatch.NullBodyShowsError | assets/js/app.js:52-56 | an ok response whose body is `null` ends in the error panel with the regions untouched |
| SearchPage.Page.ShowLoading | assets/js/app.js:61-67 | only the loading panel, the button disabled and labelled `Searching...` |
| SearchPage.Page.ShowError | assets/js/app.js:69-76 | only the error panel, holding the message in the fixed wording, the button enabled and labelled `Search` |
| SearchPage.Page.DisplayResults | assets/js/app.js:78-158 | only the results panel and the button enabled, then the regions and the TypeError exactly as `Display` gives them |
| SearchPage.Page.FillRegions | assets/js/app.js:97-157 | the summary and the three lists are written as the four stages give them, up to the first TypeError |
| SearchPage.Page.FillSources | assets/js/app.js:104-110 | the sources grid is emptied and filled exactly as `SourcesStage` gives it |
| SearchPage.Page.FillInsights | assets/js/app.js:112-132 | the insights grid is emptied and filled exactly as `InsightsStage` gives it |
| SearchPage.Page.EmitInsight | assets/js/app.js:117-119 | one slot's test appends its card or throws, as the next step of `InsightsUpTo` |
| SearchPage.Page.FillImplications | assets/js/app.js:134-157 | the implications list is emptied and filled exactly as `ImplicationsStage` gives it |
| SearchPage.Page.AppendImplications | assets/js/app.js:145-151 | the `forEach` appends exactly what `StripItems` gives, and stops at its TypeError |
| SearchPage.Page.PerformSearch | assets/js/app.js:32-58 | a blank query changes nothing and sends nothing; otherwise exactly one request is sent, the page ends as `Settle` says, and the page invariant holds |
| SearchPage.Page.Search | assets/js/app.js:36-57 | the request is logged and the page settles as `Settle` says, with the button enabled again |
| SearchPage.Page.Complete | assets/js/app.js:39-57 | each way a request can end leads to the error panel or the results panel as `Settle` says; the error text is untouched unless the error panel is shown |

## Left out

- Network and timing are not modelled:
  - The `fetch` call and `response.json()` are not modelled. Their outcome
    is an input (`Delivery`).
  - Overlapping searches and the race between their responses are not
    modelled. Each `PerformSearch` runs to completion.
- Other engine behaviour is not modelled:
  - `JSON.parse` is a parameter, and its grammar is not modelled.
  - The engine's wording of a TypeError's message is a parameter
    (`describe`).
  - `console.error` is left out. It has no effect on the page.
- DOM and markup are not modelled:
  - DOM lookups and the event wiring (button click, Enter key, quick-search
    tags) are left out. A tag click sets the input and then does what
    `PerformSearch` does.
  - HTML markup and `innerHTML` serialisation are left out. A card
    records the values placed in it, not its markup.
  - `escapeHtml` keeps only its falsy case. Its escaped text is abstract
    (`Escaped(value)`).
  - Writing a non-string value to `textContent` is not modelled. The
    summary region records the value, not its string conversion. So a
    truthy value whose text is empty, such as `[]` or `[""]`, shows as an
    empty summary (or, as a category, an empty label), although the model
    only promises a truthy value. Such a write can also throw, for example
    for `{"search_summary": {"toString": 0}}`. The source then shows the
    error panel, while the model renders the summary.
- `SearchPage.Page.constructor`: the page's initial HTML is not part of this
  model. The constructor starts with every panel hidden and the button
  enabled.
- Numbers are reals. A body holding an out-of-range literal such as
  `1e400`, which decodes to `Infinity`, cannot be expressed. Truthiness
  tests are unaffected. Where the page writes such a number as text (the
  summary, card fields, insight items) it would show `Infinity`, and the
  model does not cover that. A literal that underflows, such as `1e-400`, decodes to
  `0`; a `parse` that returns `Num(0.0)` for it covers that case.
- UTF-16 code units are not distinguished from characters.
- `Rendering.EscapeHtml`, `Rendering.CreateSourceCard` and
  `Rendering.CreateInsightCard` do not model the TypeError thrown when a
  value's string conversion fails. That happens for an object whose
  `toString` field holds no function, for example a title of
  `{"toString": 0}`, when `escapeHtml` writes it to `textContent`. In the
  source that error reaches the catch of `performSearch`, which shows the
  error panel. The model builds the card instead.
- The JSON request body is recorded as the request's message. Its
  serialisation is not modelled.
- `Rendering.FormatCategory`:
  - looks up string categories only, so JavaScript's conversion of other
    values to property keys is not modelled;
  - the lookup ignores names inherited from `Object.prototype` (such as
    `toString`), which in the source return a function.
- `JsValues.Prop` covers the data fields the page reads (`output`,
  `search_summary`, `results`, …), and none of these names an inherited
  property. `length` is handled by `OptionalLength`. The inherited methods
  `map` and `replace` are modelled by the `Arr?` and `Str?` tests.
- Markdown: this version of the page has no markdown parser. A markdown
  string in `output` goes to `JSON.parse`, and the page falls back to the
  whole body when that fails.
