# Clarify grammar path, modelled in Dafny

This project models the grammar-checking path of the Clarify browser
extension and proves properties of that model.

- The background service worker keeps a global `CONFIG`. It asks LanguageTool
  first. It falls back to an AI provider (Gemini or OpenAI) only when
  LanguageTool reports nothing, the licence is premium, the selected provider
  has a key, and the text is longer than 10 characters. Both providers' replies
  are turned into one error record shape.
- The content script's `GrammarChecker` marks and listens to text fields. It
  debounces input through one page-wide timer, filters what it sends, and
  records the errors that come back.
- The content script's page detectors estimate reading time, find article text
  and recognise privacy-policy pages.

Modules:

- `Wrappers`: `Option` and `Result`. A `Failure` stands for a thrown exception.
- `Strings`: the JavaScript string operations used (`includes`, `startsWith`,
  `toLowerCase`, `replace(/\s/g, c)`, `join`, single-character search).
- `Sequences`: subsequences and index counts, which pin a `filter` result
  down to its input.
- `Json`: parsed JavaScript values, truthiness, and property reads, which
  throw on `null` and `undefined`.
- `Normalizer`: the LanguageTool match mapping and `parseAIResponse`.
- `Orchestrator`: `checkWithAI` and `checkGrammar`, as functions of the
  providers' replies and of the two configuration snapshots `checkGrammar`
  reads: one when it begins and one once LanguageTool has answered.
- `ConfigStore`: the `CONFIG` object as a class. Its three writers
  (`validateLicense`, `loadConfigFromResult`, `updateConfig`) are methods. Each
  method is specified by a function on the snapshot.
- `GrammarMonitor`: the `GrammarChecker` class. Its browser events
  (`focusin`, `input`, timer expiry, the worker's reply) are methods.
- `Detectors`: `ArticleDetector` and `PolicyDetector`.

How the model treats the outside world:

- A provider call is an input. LanguageTool's reply is its matches or the
  message of the exception it threw. The AI provider's reply is the text
  content of its answer, or a failure.
- `JSON.parse` is a parameter `string -> Option<Value>`. `None` stands for a
  thrown `SyntaxError`.
- "The AI provider is never called" is stated as a fact about the result: no AI
  reply and no parser can change it.
- The debounce timer is a slot (`debounceTimer`) naming the one field whose
  check is pending. Time does not appear.
- DOM queries are inputs: the list of elements a selector returned, a function
  from a selector to the `innerText` of its first match, the paragraph texts.

Behaviour of the code worth knowing, each point kept by the model:

- `debounceTimer` is one module-level variable (content.js:10). Every `input`
  listener clears it and sets it again (content.js:76-81), so typing in one
  field cancels a check pending for another.
- A reply is displayed whenever it arrives (content.js:97-100); nothing ties
  it to the text that is in the field by then.
- With checking disabled, `checkGrammar` answers `{errors: [], message}`
  (background.js:96); that reply has no `source` field.
- The AI stage's reply carries the source `AI` (background.js:118).
- `parseAIResponse` parses the span from the first `[` to the last `]`,
  which the greedy `/\[[\s\S]*\]/` finds (background.js:283-285).
- A parsed value that is not an array, or an array holding `null`, makes
  `parseAIResponse` throw at its `filter` (background.js:295-299); each
  provider's own `catch` turns that into `[]`.
- `displayErrors` returns before touching `currentErrors` when the list is
  empty (content.js:112).
- `errorMarkers` is set to `[]` by the constructor (content.js:25) and by
  `clearMarkers` (content.js:125), and nothing adds to it, so clearing
  always empties an empty list. The model clears whatever the list holds.
- Every reply of `checkGrammar` carries an `errors` array (background.js:96,
  106, 118, 125, 129), and an empty array is truthy, so the `response.error`
  branch (content.js:101-103) is never taken for a worker reply, and a failed
  check clears the markers.
- `checkGrammar` reads `CONFIG` on both sides of its wait for LanguageTool:
  the enabled flag at background.js:95, the provider, keys and premium flag at
  background.js:111-113. An `updateConfig` message handled in between changes
  the AI decision but not the enabled test.
- `isTextInput` reads the `type` property (content.js:69), which is `text`
  for an `<input>` whose `type` attribute is missing, empty or not a known
  keyword; the scan selector (content.js:56) compares the attribute, so those
  inputs are reached only through `focusin`.

## Model

| member | source | states |
|---|---|---|
| `Normalizer.NormalizeMatches` | background.js:162-172 | one record per LanguageTool match, in order; each keeps the first `min(3, n)` replacements in order; `shortMessage` falls back to `message` when missing or falsy; message, offset, length, rule and category fields pass through |
| `Normalizer.BracketedCandidate` | background.js:283-284 | a candidate exists exactly when some `[` comes before some `]`; it then runs from the first `[` to the last `]`, inclusive |
| `Normalizer.JsonCandidate` | background.js:283-288 | the text parsed is exactly the bracketed candidate when there is one, so it starts with `[` and ends with `]`, and the whole content when there is none |
| `Normalizer.KeepUsable` | background.js:295-299 | the filter keeps exactly the entries with defined `offset` and `length` and truthy `message` and `replacements`; it is never longer than its input |
| `Normalizer.KeepUsableCount` | background.js:295-299 | there are as many survivors as indices whose entry passes the test, so a repeated entry is kept as often as it occurs |
| `Normalizer.KeepUsableKeepsOrder` | background.js:295-299 | the kept entries are a subsequence of the parsed array: order is preserved |
| `Normalizer.FormatEntries` | background.js:295-310 | throws exactly when an entry is null; otherwise one record per kept entry, with `offset`, `length` and `message` copied, `shortMessage` equal to `message`, array replacements kept and any other value wrapped in a one-element list, rule and type `AI_GRAMMAR`, rule description `AI-detected grammar issue` and category `Grammar (AI)` |
| `Normalizer.ParseAIResponse` | background.js:279-311 | a parse failure gives an empty list; a non-array value or a null entry throws; otherwise the result is `FormatEntries` of the parsed array, no longer than it, and every record is tagged as AI |
| `Orchestrator.SelectedKey` | background.js:111 | the Gemini key when the provider is `gemini`; the OpenAI key for any other provider name |
| `Orchestrator.AiEligible` | background.js:111-113 | the AI stage runs exactly for a premium account with a non-empty key for the selected provider and a text longer than 10 characters |
| `Orchestrator.CheckWithAI` | background.js:178-274 | an empty key for the selected provider gives `[]` with no request; a transport failure or a throwing parse gives `[]`; otherwise the parsed records |
| `Orchestrator.CheckGrammar` | background.js:94-131 | the enabled flag is read when the call begins, everything else once LanguageTool has answered; disabled gives the disabled reply with its message `Grammar checking is disabled`; a LanguageTool exception gives `{errors: [], error}`; LanguageTool findings are returned as they are with source `LanguageTool`; source `AI` only when LanguageTool was clean, the account is eligible and the AI found something; otherwise an empty list from `LanguageTool` |
| `Orchestrator.AiConsultedOnlyWhenEligible` | background.js:104-122 | unless checking is on, LanguageTool is clean, and afterwards premium is active, the selected key is non-empty and the text is longer than 10, no AI reply or parser changes the result |
| `Orchestrator.OnlyEnabledFlagReadAtStart` | background.js:95-113 | before LanguageTool answers only the enabled flag is read; the rest of the configuration at that moment never affects the result |
| `Orchestrator.DisabledConsultsNoProvider` | background.js:95-97 | with checking disabled when the call begins the result is the disabled reply, whatever either provider would answer and however the configuration changes afterwards |
| `Orchestrator.UnparseableAiReplyIsClean` | background.js:113-125 | an AI reply with no parseable JSON ends the cycle as a clean `LanguageTool` result, not an exception |
| `ConfigStore.IsPremiumKey` | background.js:78 | a key is premium exactly when it is `CLARIFY-PRO-` followed by anything |
| `ConfigStore.WithLicense` | background.js:73-88 | premium is on exactly for a prefixed key; a premium key becomes the stored licence key, a free one leaves the stored key as it was; no other field changes |
| `ConfigStore.Config.ValidateLicense` | background.js:73-88 | returns the prefix test and sets the premium flag to the same value; the new configuration is `WithLicense` of the old |
| `ConfigStore.Loaded` | background.js:44-59 | stored keys and licence apply only when truthy; the provider is always written, `gemini` by default; the enabled flag applies when present; a truthy licence key goes through the prefix test, becoming the stored key only when premium |
| `ConfigStore.Config.LoadConfigFromResult` | background.js:44-59 | the new configuration is `Loaded` of the old |
| `ConfigStore.Updated` | background.js:552-579 | every field present in the message overwrites its setting, even with an empty string; absent fields keep theirs; a licence key goes through the prefix test, becoming the stored key only when premium |
| `ConfigStore.Config.UpdateConfig` | background.js:552-579 | the new configuration is `Updated` of the old, and it answers success |
| `ConfigStore.EmptyUpdateChangesNothing` | background.js:552-576 | a message with no fields leaves the configuration unchanged |
| `ConfigStore.UpdateIdempotent` | background.js:552-576 | applying the same update twice equals applying it once |
| `ConfigStore.EmptyKeyClearsOnlyByUpdate` | background.js:51-53 | an empty key erases the stored one through `updateConfig` but not through storage loading |
| `ConfigStore.Config.constructor` | background.js:7-25 | the initial configuration: LanguageTool on, `gemini`, no keys, free tier |
| `GrammarMonitor.IsTextInput` | content.js:65-71 | a textarea, an element whose `contentEditable` is `true`, or an `<input>` whose `type` attribute is `text`, `search`, missing, or not an input-type keyword (the `type` property then reads `text`) |
| `GrammarMonitor.MatchesInputSelector` | content.js:56 | every element the scan selector matches is a text input |
| `GrammarMonitor.ScannedFieldsAreTextInputs` | content.js:54-71 | the text inputs the scan misses are exactly the `<input>` elements whose `type` attribute is missing or not a keyword |
| `GrammarMonitor.Element.Text` | content.js:88 | the first non-empty of `value`, `innerText` and `textContent`; empty exactly when all three are |
| `GrammarMonitor.GrammarChecker.constructor` | content.js:8-26 | checking enabled, no pending timer, no errors, no markers, no active element |
| `GrammarMonitor.GrammarChecker.LoadGrammarSetting` | content.js:14-16 | checking is enabled unless the stored value is literally `false` |
| `GrammarMonitor.GrammarChecker.ToggleGrammar` | content.js:257-260 | the enabled flag takes the message's value |
| `GrammarMonitor.GrammarChecker.AttachToInput` | content.js:73-83 | adds exactly one `input` listener |
| `GrammarMonitor.GrammarChecker.ScanForInputs` | content.js:54-63 | afterwards every listed element is marked; an element gains one listener if it was unmarked and none if it was marked, so a second scan attaches nothing; only the mark and the listeners may change; only elements the input selector matches are listed, so only text inputs gain listeners |
| `GrammarMonitor.GrammarChecker.OnFocusIn` | content.js:43-49 | a focused text input becomes active and gains a listener even when already marked; other elements change nothing |
| `GrammarMonitor.GrammarChecker.OnInput` | content.js:75-82 | an input event on a listened field makes that field the only pending check, cancelling any check pending for any field |
| `GrammarMonitor.GrammarChecker.CheckText` | content.js:85-90 | a request is sent exactly when checking is enabled and the field's text has at least 5 characters, and it carries that text |
| `GrammarMonitor.GrammarChecker.OnTimerFired` | content.js:79-81 | the slot is emptied; the pending field's text is sent under the same conditions as `CheckText`; with nothing pending nothing is sent |
| `GrammarMonitor.GrammarChecker.ClearMarkers` | content.js:123-126 | every marker is removed from the page and the list is emptied |
| `GrammarMonitor.GrammarChecker.DisplayErrors` | content.js:108-121 | markers are always cleared first; an empty list keeps `currentErrors`, any other list replaces it |
| `GrammarMonitor.GrammarChecker.OnCheckResponse` | content.js:95-105 | every worker reply is displayed: the old markers leave the page and the list empties, a failure included; a missing reply changes neither the markers nor the errors |
| `Detectors.SplitWhitespace` | content.js:167 | `split(/\s+/)` always yields at least one piece, no piece holds whitespace, and the pieces rejoined by single spaces are the text with each whitespace run collapsed to one space, so leading or trailing whitespace gives an empty edge piece |
| `Detectors.SplitFromCollapses` | content.js:167 | the induction behind the collapse property: the split continued from a partial piece, rejoined by spaces, is that piece followed by the collapsed rest |
| `Detectors.SplitJoinRoundTrip` | content.js:167 | splitting non-empty words joined by single spaces gives back the words |
| `Detectors.EstimateReadingTime` | content.js:165-169 | the estimate is the ceiling of the piece count over 200, and never less than one minute |
| `Detectors.ReadingTimeOfWords` | content.js:165-169 | for single-spaced words the estimate is the ceiling of the word count over 200 |
| `Detectors.SelectorArticle` | content.js:136-150 | the text of the first selector in list order whose match is longer than 500 characters; none exactly when no selector has one |
| `Detectors.LongParagraphs` | content.js:153-156 | exactly the paragraphs longer than 100 characters are kept |
| `Detectors.LongParagraphsKeepOrder` | content.js:153-156 | the kept paragraphs are a subsequence of the page's: order is preserved |
| `Detectors.LongParagraphsCount` | content.js:153-156 | one kept paragraph per index whose text is longer than 100 characters, repeated texts included |
| `Detectors.ParagraphFallback` | content.js:153-162 | a text is returned exactly when more than 3 paragraphs of the page are longer than 100 characters |
| `Detectors.FallbackArticleLength` | content.js:153-160 | a fallback article is at least 4 × 101 + 3 × 2 characters long |
| `Detectors.DetectArticle` | content.js:134-163 | the selector loop's early return gives the selector article when there is one, else the paragraph fallback |
| `Detectors.AnyKeywordMatches` | content.js:190-194 | true exactly when some keyword matches |
| `Detectors.IsPolicyPage` | content.js:177-195 | true exactly when some keyword occurs in the lower-cased title, or its hyphenated or underscored form occurs in the lower-cased URL |
| `Detectors.PolicyPageIgnoresCase` | content.js:178-179 | lower-casing the URL or title beforehand does not change the answer |
| `Strings.Contains` | content.js:191-193 | `includes` is true exactly when the needle occurs at some index |
| `Strings.JoinLengthAtLeast` | content.js:159 | a join of n parts of at least m characters has at least n·m + (n−1)·separator characters |

## Left out

- HTTP: `fetch`, status codes, request bodies, model names, temperatures and
  token limits. Each provider exchange is an input reply.
- `JSON.parse`: a parameter of the model.
- The `trim()` of the AI's text: the reply content is taken as already trimmed.
- `summarizeText`, `analyzePolicy`, their helpers, and the `summarize` and
  `analyzePolicy` message branches: they are outside the grammar path.
- `PolicyDetector.extractPolicy` and the `getArticle`/`getPolicy` messages:
  they only forward `detectArticle` or the body text.
- The `init` wiring (`MutationObserver`, `DOMContentLoaded`, the
  `articleDetected` and `policyDetected` messages) and `chrome.runtime`
  messaging: they are browser plumbing. The events they deliver are the
  methods of `GrammarChecker`.
- `console.log` and `console.error` calls.
- The storage read and its local fallback around `loadConfigFromResult`: they
  are I/O. The storage result is an input.
- `popup.js` and `options.js`: these are the user interface and persistence.
- JavaScript numbers are integers here. `NaN`, fractions and `-0` are not
  modelled.
- Lower-casing folds only ASCII letters. String length is counted in
  characters, not UTF-16 code units.
- Missing `value`, `innerText` or `textContent` of an element are empty
  strings. Non-string licence keys and non-boolean flags in messages are not
  modelled.
- HTML attribute case folding is not modelled. The `type` attribute is taken as
  already lower-case. The `contenteditable` attribute and property are one
  value.
- Timing: the 500 ms quiet period is the gap between `OnInput` and
  `OnTimerFired`.
