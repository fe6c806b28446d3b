# SwiftReadability conversion core, in Dafny

SwiftReadability turns a web page into a reader-mode page. It loads the page
in an off-screen `WKWebView` and runs Mozilla's Readability.js in the page
once the document is ready. It then checks the JSON the script returns and
pours title, byline and content into a bundled HTML template. This project
models the parts of that pipeline that make decisions:

- **The conversion state machine** of the `Readability` class (`conversion.dfy`).
  - The class has two mutable fields: `isRenderingReadabilityHTML` and the
    counter `allowNavigationFailures`.
  - Its handlers are driven by:
    - the `readabilityJavascriptLoaded` script message;
    - `didFinish` and `didFail` navigation events;
    - the `evaluateJavaScript` callback;
    - the content-rule compiler's callback.
  - The completion wrapper stops loading, detaches the object and reports to
    the caller.
  - The machine is stated twice:
    - on values: a `Snapshot`, one function per handler, `Step` for WebKit's
      routing of an event, and `Run` for a sequence of events;
    - as the class `Readability`, whose methods are each proved to move the
      object exactly as the matching function says.
  - The class `WebView` stands for the web view, its content controller and
    the rule-list store. It records the calls made on WebKit and the
    callbacks WebKit still owes.
- **The result check** of the extraction script's output (`extraction.dfy`).
  - `JSONSerialization` is a parameter.
- **Template rendering** (`template.dfy`).
  - `renderHTML`: five `replacingOccurrences` passes in a fixed order.
  - The min-length substitution into the initialisation script.
- **Content-rule selection** (`content_rules.dfy`): which resource types are
  blocked for each suppression mode.
- **The lossy UTF-8 decoder** `String.init(malformedData:encoding:)` (`utf8.dfy`).
  - Well-formedness is taken from section 4 of RFC 3629.
- **The `uri` object** the initialisation script builds from
  `document.location` (`uri.dfy`).
  - JavaScript's `substr` is written out with the clamping rules of Annex B
    of ECMAScript. `indexOf` and `lastIndexOf` are modelled only as the
    script calls them: a one-character search string and no start position.

Behaviour of the code that the model keeps as written:

- Only the success path of the extraction callback clears
  `isRenderingReadabilityHTML`. A failed or unparsable result reports an
  error and leaves the flag set (`Conversion.RenderingClearedOnlyOnSuccess`).
- Nothing guards the caller's completion handler against a second call.
  Take a `didFail` that arrives while the extraction script runs and the
  counter is 0: it reports an error and detaches the object. The script's
  callback, which WebKit still owes, then reports again
  (`Conversion.SecondReportAfterUntoleratedFailure`). The bound that does
  hold is at most two reports (`Conversion.ConversionBounds`).
- With suppression `.none`, `addContentRules` returns before compiling.
  The callback that loads the URL or HTML is then never run, so such a
  conversion never loads its page (`Conversion.NoSuppressionNeverLoads`).
  `.none` is the default of every initialiser.

## Model

| member | source | states |
|---|---|---|
| `ContentRules.BlockedResourceTypes` | SwiftReadability/Readability.swift:107-116 | `.none` compiles no rules. Otherwise the six always-blocked types come first, and `"script"` is added exactly for `.all`. |
| `Extraction.CheckScriptResult` | SwiftReadability/Readability.swift:180-190 | A non-string result passes WebKit's error on. A string is accepted exactly when it parses to a string/null object with `title`, `byline` and non-null `content`, and otherwise fails with `unableToParseScriptResult` carrying that string. An accepted article's fields are the object's. |
| `Extraction.ScriptOutput` | SwiftReadability/readability_initialization.template.js:15-19 | The object the script stringifies always has the keys the check asks for. |
| `Extraction.CheckScriptResultReadsScriptOutput` | SwiftReadability/Readability.swift:183-187 | Round trip: provided `parseJson` returns the object the script emitted, the check accepts it and gives back the same article. Whether the `[String: String?]` cast keeps a JSON `null` as nil lies inside that proviso. |
| `Template.ReplaceAll` | SwiftReadability/Readability.swift:157-162 | `replacingOccurrences` leaves text without the pattern unchanged. |
| `Template.ReplaceAllAtMatch` | SwiftReadability/Readability.swift:157-162 | An occurrence at the front is replaced and scanning resumes after it. |
| `Template.ReplaceAllSkip` | SwiftReadability/Readability.swift:157-162 | A prefix `x` is copied unchanged when no occurrence starts at any of its positions in the whole text `x + rest` (an occurrence straddling the boundary counts as starting in `x`). |
| `Template.ReplaceAllHashFree` | SwiftReadability/Readability.swift:157-162 | Text without `#` is never altered by a placeholder substitution. |
| `Template.Placeholder` | SwiftReadability/Readability.swift:158-162 | Every placeholder is `##NAME##` with an upper-case name. |
| `Template.PlaceholdersDiffer` | SwiftReadability/Readability.swift:158-162 | Distinct placeholders differ within their first two name letters. |
| `Template.ReplaceAllSkipsPlaceholder` | SwiftReadability/Readability.swift:158-162 | Substituting one placeholder leaves a different placeholder intact, provided what follows it is empty or starts with neither `#` nor a capital letter. |
| `Template.ReplaceAllSkipsValue` | SwiftReadability/Readability.swift:157-162 | Substituting a placeholder passes over a value that holds no occurrence of it (`#` allowed), when what follows starts with neither `#` nor a capital. |
| `Template.ReplaceAllFillsHole` | SwiftReadability/Readability.swift:157-162 | For a well-formed template (its literal text holds no `#`, and every hole is followed by the end of the template or by non-empty text starting with neither `#` nor a capital letter), one pass fills exactly the holes of its placeholder, provided no value filled in earlier contains that placeholder. |
| `Template.RenderHTML` | SwiftReadability/Readability.swift:148-164 | The five passes in source order. Its contract is stated by `Template.RenderHTMLFillsTemplate`. |
| `Template.FillAll` | SwiftReadability/Readability.swift:157-162 | For a well-formed template (as in the `ReplaceAllFillsHole` row), the five passes in the order CSS, TITLE, BYLINE, CONTENT, SCRIPT fill every hole when no value holds a later slot's placeholder. |
| `Template.RenderHTMLFillsTemplate` | SwiftReadability/Readability.swift:148-164 | For a well-formed template (as in the `ReplaceAllFillsHole` row) and when no value holds the placeholder of a slot substituted after its own (`#` anywhere is fine), `renderHTML` yields the template with each hole filled: CSS is Reader.css then SwiftReadability.css, a nil title or byline becomes empty, and the script slot gets the images script. |
| `Template.ContentPlaceholderTextIsSubstitutedLater` | SwiftReadability/Readability.swift:161-162 | Order matters: content containing `##SCRIPT##` has it replaced by the images script. |
| `Template.TitlePlaceholderTextIsNotSubstitutedAgain` | SwiftReadability/Readability.swift:158-159 | A title containing `##CSS##` keeps it, since the CSS pass has already run. |
| `Template.Digits` | SwiftReadability/Readability.swift:178 | `String(Int)` digits: non-empty, decimal, no leading zero. |
| `Template.DecimalString` | SwiftReadability/Readability.swift:178 | The decimal text of the minimum length contains no `#`. |
| `Template.ParseDigitsOfDigits` | SwiftReadability/Readability.swift:178 | Reading the digits back gives the number. |
| `Template.DecimalStringRoundTrip` | SwiftReadability/Readability.swift:178 | `String(Int)` round-trips for every integer, negative ones included. |
| `Template.InitializationScript` | SwiftReadability/Readability.swift:178 | The min-length substitution. Its contract is stated by `Template.InitializationScriptSubstitutes`. |
| `Template.InitializationScriptSubstitutes` | SwiftReadability/Readability.swift:171-178 | The script evaluated is the template with its placeholder replaced by the decimal minimum length. |
| `Template.DefaultMinLengthText` | SwiftReadability/Readability.swift:58 | The default minimum length is substituted as `250`. |
| `Conversion.Init` | SwiftReadability/Readability.swift:43-71 | After `init`: not rendering, counter 0, nothing in flight, delegate and handler attached, nothing reported, no extraction and no load requested; a compilation is pending exactly when suppression is not `.none`. |
| `Conversion.Complete` | SwiftReadability/Readability.swift:46-52 | The wrapper appends exactly its report, detaches delegate and handler, keeps flag, counter and pending callbacks, and starts no extraction. |
| `Conversion.StartExtraction` | SwiftReadability/Readability.swift:202-204 | Sets the rendering flag, owes one more script callback, counts exactly one more extraction, and reports nothing. |
| `Conversion.OnScriptMessage` | SwiftReadability/Readability.swift:228-243 | The state changes exactly for the right name, while idle, under `.atDocumentEnd`; then the counter rises by one and one extraction starts. Never reports or detaches. |
| `Conversion.OnNavigationFinished` | SwiftReadability/Readability.swift:247-251 | The state changes exactly when not rendering, and then one extraction starts; the flag is set afterwards either way; nothing is reported. |
| `Conversion.OnNavigationFailed` | SwiftReadability/Readability.swift:253-259 | Reports exactly when the counter is not positive, then `(nil, error)` and detached; otherwise the counter drops by one and no call is made; the counter stays non-negative. |
| `Conversion.OnScriptEvaluated` | SwiftReadability/Readability.swift:180-211 | One owed callback fewer, exactly one report appended, detached; the flag stays set exactly when it was set and the report carries no content; content comes without an error. |
| `Conversion.OnContentRuleListCompiled` | SwiftReadability/Readability.swift:132-145 | No compilation pending afterwards; calls are added exactly on success; nothing reported, flag and counter unchanged. |
| `Conversion.Step` | SwiftReadability/Readability.swift:66-67 | Calls and reports only grow; a message without the handler, a navigation event without the delegate, a callback not owed leave the state unchanged. |
| `Conversion.ExtractionsAddOne` | SwiftReadability/Readability.swift:180 | Appending a call counts it exactly when it is `evaluateJavaScript`. |
| `Conversion.ContentRuleListCompiledExtractions` | SwiftReadability/Readability.swift:132-145 | The rule compiler's callback starts no extraction. |
| `Conversion.StepExtractions` | SwiftReadability/Readability.swift:234-250 | An event starts an extraction exactly when the object is idle and it is `didFinish`, or an accepted script message under `.atDocumentEnd`; it then starts exactly one. |
| `Conversion.InitInv` | SwiftReadability/Readability.swift:43-71 | The state `init` leaves satisfies the conversion invariant. |
| `Conversion.StepInv` | SwiftReadability/Readability.swift:228-259 | Every handler, under WebKit's routing, preserves the invariant: counter 0 or 1, at most one extraction started and at most one in flight, attached until the first report, at most two reports. |
| `Conversion.RunInv` | SwiftReadability/Readability.swift:228-259 | The invariant holds after any sequence of events. |
| `Conversion.ConversionBounds` | SwiftReadability/Readability.swift:228-259 | Over a whole conversion the failure counter stays in 0..1, `evaluateJavaScript` is called at most once and the caller hears at most twice. |
| `Conversion.ScriptMessageIgnored` | SwiftReadability/Readability.swift:228-243 | A message with another name, during an extraction, or under `.atNavigationFinished` changes nothing. |
| `Conversion.ScriptMessageForcesExtraction` | SwiftReadability/Readability.swift:238-242 | Under `.atDocumentEnd` an accepted message raises the counter by one, stops loading, then starts the extraction. |
| `Conversion.ExtractionStartsOnlyWhenIdle` | SwiftReadability/Readability.swift:234-251 | An extraction starts only from an attached, idle state with nothing in flight. |
| `Conversion.NavigationFailureHandling` | SwiftReadability/Readability.swift:253-259 | A tolerated `didFail` takes one off the counter and reports nothing; an untolerated one reports `(nil, error)`; the counter never goes negative. |
| `Conversion.RenderingClearedOnlyOnSuccess` | SwiftReadability/Readability.swift:202-211 | The rendering flag falls back only when rendered content is reported with no error. |
| `Conversion.ScriptEvaluatedReports` | SwiftReadability/Readability.swift:180-211 | An accepted article reports the rendered template and clears the flag; anything else reports the check's error and keeps the flag. |
| `Conversion.NothingReachesDetachedObject` | SwiftReadability/Readability.swift:46-52 | After the completion wrapper, navigation events and script messages change nothing. |
| `Conversion.SecondReportAfterUntoleratedFailure` | SwiftReadability/Readability.swift:253-259 | `didFinish`, an untolerated `didFail`, then the script callback make two reports. |
| `Conversion.CompiledRulesLoadPage` | SwiftReadability/Readability.swift:132-145 | A successful compilation adds the rule list and then loads the page; a failed one does neither. |
| `Conversion.StepWithoutCompilationNeverLoads` | SwiftReadability/Readability.swift:142-144 | With no compilation pending, no single event requests a page load or makes a compilation pending. |
| `Conversion.RunWithoutCompilationNeverLoads` | SwiftReadability/Readability.swift:142-144 | Without a pending compilation no event ever requests a page load. |
| `Conversion.NoSuppressionNeverLoads` | SwiftReadability/Readability.swift:107-110 | With `.none` the page is never loaded, whatever WebKit delivers. |
| `Conversion.Readability.constructor` | SwiftReadability/Readability.swift:43-71 | The minimum length defaults to 250, the rules are requested unless `.none`, and the object is installed as delegate and handler: the state is `Init`. |
| `Conversion.Readability.AddContentRules` | SwiftReadability/Readability.swift:107-130 | Requests compilation of exactly the selected resource types, or nothing for `.none`. |
| `Conversion.Readability.ContentRuleListCompiled` | SwiftReadability/Readability.swift:132-145 | Moves the object as `OnContentRuleListCompiled`. |
| `Conversion.Readability.CompletionHandler` | SwiftReadability/Readability.swift:46-52 | Stops loading, removes the handler, clears the delegate, then reports. |
| `Conversion.Readability.InitializeReadability` | SwiftReadability/Readability.swift:171-180 | Evaluates the initialisation template with the minimum length substituted. |
| `Conversion.Readability.RawPageFinishedLoading` | SwiftReadability/Readability.swift:202-204 | Sets the rendering flag and starts the extraction. |
| `Conversion.Readability.ScriptEvaluated` | SwiftReadability/Readability.swift:180-211 | Moves the object as `OnScriptEvaluated`. |
| `Conversion.Readability.DidReceiveScriptMessage` | SwiftReadability/Readability.swift:228-243 | Moves the object as `OnScriptMessage`. |
| `Conversion.Readability.DidFinishNavigation` | SwiftReadability/Readability.swift:247-251 | Moves the object as `OnNavigationFinished`. |
| `Conversion.Readability.DidFailNavigation` | SwiftReadability/Readability.swift:253-259 | Moves the object as `OnNavigationFailed`. |
| `Conversion.Deliver` | SwiftReadability/Readability.swift:66-67 | Navigation events reach the object only while it is the delegate, messages only while its handler is registered: the object moves as `Step`. |
| `Utf8.ScalarOf` | SwiftReadability/String+MalformedEncoding.swift:22-23 | A well-formed sequence of one to four bytes stands for a scalar value (not a surrogate, at most U+10FFFF), in the length's range. |
| `Utf8.EncodeScalar` | SwiftReadability/String+MalformedEncoding.swift:22-23 | Every scalar has a well-formed encoding that decodes back to it. |
| `Utf8.EncodeScalarOf` | SwiftReadability/String+MalformedEncoding.swift:22-23 | Every well-formed sequence is the encoding of its scalar. |
| `Utf8.CharLength` | SwiftReadability/String+MalformedEncoding.swift:19 | The length of the shortest well-formed sequence the input starts with (no shorter prefix is well-formed), or 0 exactly when no prefix of one to four bytes is well-formed. |
| `Utf8.CharLengthOfEncoded` | SwiftReadability/String+MalformedEncoding.swift:19 | UTF-8 is prefix-free: the codec reads back exactly one encoded scalar. |
| `Utf8.DecodeNext` | SwiftReadability/String+MalformedEncoding.swift:19-26 | `emptyInput` exactly at the end; otherwise a scalar for a well-formed prefix, or an error consuming at least one byte, and an error only when no prefix of one to four bytes is well-formed. |
| `Utf8.LossyDecode` | SwiftReadability/String+MalformedEncoding.swift:13-29 | Total; empty data gives the empty string; its result type holds scalar values only (no surrogates, nothing above U+10FFFF); no more scalars than bytes. |
| `Utf8.StringFromMalformedData` | SwiftReadability/String+MalformedEncoding.swift:13-29 | The loop terminates and builds `LossyDecode(data)`, whatever the encoding argument. |
| `Utf8.DecodeEncodeAll` | SwiftReadability/String+MalformedEncoding.swift:18-23 | Decoding the encoding of any scalars gives them back. |
| `Utf8.EncodeDecodeWellFormed` | SwiftReadability/String+MalformedEncoding.swift:18-23 | Well-formed input decodes to scalars whose encoding is exactly the input. |
| `Utf8.DecodeDropsOnly` | SwiftReadability/String+MalformedEncoding.swift:24-25 | Ill-formed bytes are dropped, never replaced: re-encoding the output gives a subsequence of the input. |
| `Utf8.AsciiIdentity` | SwiftReadability/String+MalformedEncoding.swift:22-23 | All-ASCII input yields the same code points in the same order. |
| `Uri.IndexOf` | SwiftReadability/readability_initialization.template.js:8 | -1 exactly when the character is absent, else its first position. |
| `Uri.LastIndexOf` | SwiftReadability/readability_initialization.template.js:9 | -1 exactly when the character is absent, else its last position. |
| `Uri.Substr` | SwiftReadability/readability_initialization.template.js:8-9 | Never longer than the string; a length of zero or less gives ""; in-range arguments give the slice clamped to the end. |
| `Uri.Scheme` | SwiftReadability/readability_initialization.template.js:8 | `scheme` holds no `:` and is followed by `:` in the protocol; it is "" when the protocol has no `:`. |
| `Uri.Directory` | SwiftReadability/readability_initialization.template.js:9 | A prefix of the path ending in its last `/`, or "" when the path has no `/`. |
| `Uri.MakeUri` | SwiftReadability/readability_initialization.template.js:3-10 | `prePath` is protocol + `//` + host; `pathBase` starts with `prePath`, continues with the path's directory and equals `prePath` when the path has no `/`. |

## Left out

- WebKit itself is not modelled. The class `WebView` records the calls made on it and the callbacks it owes, and `Deliver` states its routing. Navigation objects, frames, KVO and incremental rendering are not modelled.
- Progress reporting (`observeValue`, `progressCallback`, lines 214-224), the `URLSessionDataDelegate` extension, `downloadBuffer` and `expectedContentLength` are not modelled: nothing in the conversion reads them.
- The JSON text of the blocking rule (lines 118-128) is not modelled; the model keeps the list of resource types it is built from. So are the rule-store identifier and the `print` of compilation errors.
- Loading bundled files, and the `fatalError` when one is missing, are not modelled: assets are values of `Template.Assets`.
- `JSONSerialization` is a parameter `parseJson`. So are the cast to `[String: String?]` and the bridging of `result as? String`: a non-string result is `None`.
- Weak references are not modelled: the object is assumed alive while callbacks arrive. That leaves out the `self?` guard after `renderHTML` (lines 191-197) and the weak captures.
- The `guard let html` failure branch of `rawPageFinishedLoading` (lines 206-209) is not modelled, because `initializeReadability` never passes a nil html to that closure.
- `addReadabilityUserScript` and `ReadabilityUserScript` (the injected Readability.js) are not modelled. The running of Readability.js is reduced to the object it returns, `Extraction.ScriptOutput`.
- `ReadabilityViewController` and the example app are not modelled: they only display the result.
- Strings compare element by element: no Unicode canonical equivalence. JavaScript strings are UTF-16 code units, and the `uri` model indexes `char`s.
- `Utf8.DecodeNext`: does not fix how many bytes an error consumes. The codec's maximal-subpart rule is library behaviour; the model takes a parameter, clamped to between one byte and the rest of the input.
- `Template.ReplaceAll`: requires a non-empty pattern, as every call site passes a literal placeholder.
- `Template.RenderHTMLFillsTemplate`: holds only for a well-formed template. That is an assumption about the bundled Reader.template.html, whose text is not part of this model: its literal text holds no `#`, and each placeholder is followed by the end of the file or by text starting with neither `#` nor a capital letter. Without the second condition, a title `##CONTEN`, the template text `T` right after its hole and a byline `##` would together spell `##CONTENT##`, and the CONTENT pass would replace it.
- `Conversion.OnContentRuleListCompiled`: the compiler's callback is reduced to success or error (`compiled`). A callback with neither an error nor a rule list, where the code skips adding the list but still runs the load callback, is not modelled: WebKit passes exactly one of the two.
