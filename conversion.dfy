/**
 * The conversion state machine of the `Readability` class
 * (SwiftReadability/Readability.swift:29-259): two mutable fields,
 * `isRenderingReadabilityHTML` and `allowNavigationFailures`, driven by
 * WebKit's navigation events, the script message the injected Readability.js
 * posts, the result of the extraction script and the content-rule compiler.
 *
 * The first half states the machine on values: a `Snapshot` of everything a
 * handler reads or changes, one function per handler, `Step` for WebKit's
 * routing of an event and `Run` for a sequence of events, and the lemmas
 * about them. The second half is the class itself, each method proved to
 * move its state exactly as the matching function says.
 */
module Conversion {
  import opened Wrappers
  import opened Template
  import opened Extraction
  import ContentRules

  /** `ReadabilityConversionTime`. */
  datatype ConversionTime = AtDocumentEnd | AtNavigationFinished

  /** The name the message handler is registered under, and the one the handler accepts. */
  const MessageHandlerName := "readabilityJavascriptLoaded"

  /** What the caller's completion handler receives: `(content, error)`. */
  datatype Completion = Completion(content: Option<string>, error: Option<Error>)

  /** What the convenience initialisers load once the content rules are in place. */
  datatype PageSource = Url(url: string) | Html(html: string, baseUrl: Option<string>)

  /** The calls the conversion makes on WebKit, in the order it makes them. */
  datatype EngineCall =
    | CompileContentRuleList(resourceTypes: seq<string>)
    | AddContentRuleList
    | Load(source: PageSource)
    | StopLoading
    | EvaluateJavaScript(script: string)

  /** The settings fixed when the object is created, and the bundled assets. */
  datatype Config = Config(
    conversionTime: ConversionTime,
    suppression: ContentRules.SuppressionType,
    meaningfulContentMinLength: int,
    assets: Assets,
    parseJson: string -> Option<JsonObject>,
    contentRulesAdded: Option<PageSource>)

  /** The script `initializeReadability` evaluates. */
  function ExtractionScript(cfg: Config): string {
    InitializationScript(cfg.assets.initializationTemplate, cfg.meaningfulContentMinLength)
  }

  /**
   * Everything the handlers read or change: the two fields of the object,
   * whether WebKit still routes navigation events and script messages to it,
   * the callbacks WebKit still owes it, the calls made on WebKit so far and
   * the results handed to the caller so far.
   */
  datatype Snapshot = Snapshot(
    rendering: bool,            // isRenderingReadabilityHTML
    allowFailures: int,         // allowNavigationFailures
    delegateAttached: bool,     // webView.navigationDelegate is this object
    handlerAttached: bool,      // the script message handler is registered
    compilePending: bool,       // the rule compiler has not called back yet
    pendingEvaluations: nat,    // evaluateJavaScript callbacks not run yet
    calls: seq<EngineCall>,
    completions: seq<Completion>)

  /** Something WebKit delivers to the conversion. */
  datatype Event =
    | ScriptMessage(name: string)
    | NavigationFinished
    | NavigationFailed(failure: Error)
    | ScriptEvaluated(result: Option<string>, error: Option<Error>)
    | ContentRuleListCompiled(compiled: bool)

  /** The state `init` leaves: handlers attached, rules requested unless the mode is `.none`. */
  function Init(cfg: Config): (s: Snapshot)
    ensures !s.rendering && s.allowFailures == 0 && s.pendingEvaluations == 0
    ensures s.delegateAttached && s.handlerAttached && s.completions == []
    ensures s.compilePending <==> cfg.suppression != ContentRules.None
    ensures Extractions(s.calls) == 0 && NoLoad(s.calls)
  {
    var types := ContentRules.BlockedResourceTypes(cfg.suppression);
    Snapshot(false, 0, true, true, types.Some?, 0,
             if types.Some? then [CompileContentRuleList(types.value)] else [], [])
  }

  /** The completion wrapper of `init`: stop loading, detach, then report. */
  function Complete(s: Snapshot, c: Completion): (t: Snapshot)
    ensures t.completions == s.completions + [c] && !t.delegateAttached && !t.handlerAttached
    ensures t.rendering == s.rendering && t.allowFailures == s.allowFailures
    ensures t.pendingEvaluations == s.pendingEvaluations && t.compilePending == s.compilePending
    ensures s.calls <= t.calls && Extractions(t.calls) == Extractions(s.calls)
    ensures NoLoad(s.calls) ==> NoLoad(t.calls)
  {
    ExtractionsAddOne(s.calls, StopLoading);
    s.(calls := s.calls + [StopLoading], handlerAttached := false, delegateAttached := false,
       completions := s.completions + [c])
  }

  /** `rawPageFinishedLoading` up to the point where it waits for the script. */
  function StartExtraction(cfg: Config, s: Snapshot): (t: Snapshot)
    ensures t.rendering && t.pendingEvaluations == s.pendingEvaluations + 1
    ensures s.calls <= t.calls && Extractions(t.calls) == Extractions(s.calls) + 1
    ensures NoLoad(s.calls) ==> NoLoad(t.calls)
    ensures t.completions == s.completions && t.allowFailures == s.allowFailures
    ensures t.delegateAttached == s.delegateAttached && t.handlerAttached == s.handlerAttached
    ensures t.compilePending == s.compilePending
  {
    ExtractionsAddOne(s.calls, EvaluateJavaScript(ExtractionScript(cfg)));
    s.(rendering := true, pendingEvaluations := s.pendingEvaluations + 1,
       calls := s.calls + [EvaluateJavaScript(ExtractionScript(cfg))])
  }

  /** `userContentController(_:didReceive:)`. */
  function OnScriptMessage(cfg: Config, s: Snapshot, name: string): (t: Snapshot)
    ensures t != s <==> name == MessageHandlerName && !s.rendering && cfg.conversionTime == AtDocumentEnd
    ensures t != s ==> t.allowFailures == s.allowFailures + 1 && t.rendering
                       && Extractions(t.calls) == Extractions(s.calls) + 1
    ensures s.calls <= t.calls && t.completions == s.completions
    ensures t.delegateAttached == s.delegateAttached && t.handlerAttached == s.handlerAttached
  {
    if name != MessageHandlerName then s
    else if s.rendering then s
    else if cfg.conversionTime == AtDocumentEnd then
      StartExtraction(cfg, s.(allowFailures := s.allowFailures + 1, calls := s.calls + [StopLoading]))
    else s
  }

  /** `webView(_:didFinish:)`. */
  function OnNavigationFinished(cfg: Config, s: Snapshot): (t: Snapshot)
    ensures t != s <==> !s.rendering
    ensures !s.rendering ==> t.pendingEvaluations == s.pendingEvaluations + 1
                             && Extractions(t.calls) == Extractions(s.calls) + 1
    ensures t.rendering && t.allowFailures == s.allowFailures
    ensures s.calls <= t.calls && t.completions == s.completions
  {
    if !s.rendering then StartExtraction(cfg, s) else s
  }

  /** `webView(_:didFail:withError:)`. */
  function OnNavigationFailed(s: Snapshot, error: Error): (t: Snapshot)
    ensures t.completions != s.completions <==> s.allowFailures <= 0
    ensures s.allowFailures <= 0 ==> t.completions == s.completions + [Completion(None, Some(error))]
                                     && !t.delegateAttached && !t.handlerAttached
    ensures s.allowFailures > 0 ==> t.allowFailures == s.allowFailures - 1 && t.calls == s.calls
    ensures s.allowFailures >= 0 ==> t.allowFailures >= 0
    ensures t.rendering == s.rendering && t.pendingEvaluations == s.pendingEvaluations
    ensures s.calls <= t.calls
  {
    if s.allowFailures > 0 then s.(allowFailures := s.allowFailures - 1)
    else Complete(s, Completion(None, Some(error)))
  }

  /**
   * The `evaluateJavaScript` callback of `initializeReadability` together
   * with the closure of `rawPageFinishedLoading` that it calls on success.
   * Only that path clears `isRenderingReadabilityHTML`.
   */
  function OnScriptEvaluated(cfg: Config, s: Snapshot, result: Option<string>, error: Option<Error>): (t: Snapshot)
    requires s.pendingEvaluations > 0
    ensures t.pendingEvaluations == s.pendingEvaluations - 1
    ensures |t.completions| == |s.completions| + 1 && t.completions[..|s.completions|] == s.completions
    ensures !t.delegateAttached && !t.handlerAttached
    ensures t.rendering <==> s.rendering && t.completions[|s.completions|].content.None?
    ensures t.completions[|s.completions|].content.Some? ==> t.completions[|s.completions|].error.None?
    ensures s.calls <= t.calls
  {
    var s' := s.(pendingEvaluations := s.pendingEvaluations - 1);
    match CheckScriptResult(result, error, cfg.parseJson)
    case Failure(e) => Complete(s', Completion(None, e))
    case Success(a) =>
      Complete(s'.(rendering := false),
               Completion(Some(RenderHTML(cfg.assets, a.title, a.byline, a.content)), None))
  }

  /** The rule compiler's callback in `addContentRules`: on success add the rules, then load the page. */
  function OnContentRuleListCompiled(cfg: Config, s: Snapshot, compiled: bool): (t: Snapshot)
    ensures !t.compilePending && t.completions == s.completions && t.rendering == s.rendering
    ensures t.pendingEvaluations == s.pendingEvaluations && t.allowFailures == s.allowFailures
    ensures s.calls <= t.calls && (|t.calls| > |s.calls| <==> compiled)
  {
    var s' := s.(compilePending := false);
    if !compiled then s'
    else
      var load := match cfg.contentRulesAdded
        case None => []
        case Some(source) => [Load(source)];
      s'.(calls := s'.calls + [AddContentRuleList] + load)
  }

  /**
   * WebKit's routing: navigation events reach the object only while it is
   * the navigation delegate, script messages only while its handler is
   * registered, and a callback only while one is owed.
   */
  function Step(cfg: Config, s: Snapshot, e: Event): (t: Snapshot)
    ensures s.calls <= t.calls && s.completions <= t.completions
    ensures e.ScriptMessage? && !s.handlerAttached ==> t == s
    ensures (e.NavigationFinished? || e.NavigationFailed?) && !s.delegateAttached ==> t == s
    ensures e.ScriptEvaluated? && s.pendingEvaluations == 0 ==> t == s
    ensures e.ContentRuleListCompiled? && !s.compilePending ==> t == s
  {
    match e
    case ScriptMessage(name) => if s.handlerAttached then OnScriptMessage(cfg, s, name) else s
    case NavigationFinished => if s.delegateAttached then OnNavigationFinished(cfg, s) else s
    case NavigationFailed(error) => if s.delegateAttached then OnNavigationFailed(s, error) else s
    case ScriptEvaluated(result, error) =>
      if s.pendingEvaluations > 0 then OnScriptEvaluated(cfg, s, result, error) else s
    case ContentRuleListCompiled(compiled) =>
      if s.compilePending then OnContentRuleListCompiled(cfg, s, compiled) else s
  }

  function Run(cfg: Config, s: Snapshot, events: seq<Event>): Snapshot
    decreases |events|
  {
    if events == [] then s else Run(cfg, Step(cfg, s, events[0]), events[1..])
  }

  // ---------------------------------------------------------------------
  // Counting calls

  /** The number of extractions started: calls of `evaluateJavaScript`. */
  function Extractions(calls: seq<EngineCall>): nat
    decreases |calls|
  {
    if calls == [] then 0
    else Extractions(calls[..|calls| - 1]) + (if calls[|calls| - 1].EvaluateJavaScript? then 1 else 0)
  }

  /** Appending one call counts it if, and only if, it is an `evaluateJavaScript`. */
  lemma ExtractionsAddOne(calls: seq<EngineCall>, c: EngineCall)
    ensures Extractions(calls + [c]) == Extractions(calls) + (if c.EvaluateJavaScript? then 1 else 0)
  {
    assert (calls + [c])[..|calls|] == calls;
  }

  /** No page load requested so far. */
  ghost predicate NoLoad(calls: seq<EngineCall>) {
    forall i :: 0 <= i < |calls| ==> !calls[i].Load?
  }

  /** Whether WebKit delivering `e` in state `s` starts an extraction. */
  predicate StartsExtraction(cfg: Config, s: Snapshot, e: Event) {
    && !s.rendering
    && match e
       case NavigationFinished => s.delegateAttached
       case ScriptMessage(name) =>
         s.handlerAttached && name == MessageHandlerName && cfg.conversionTime == AtDocumentEnd
       case _ => false
  }

  lemma ContentRuleListCompiledExtractions(cfg: Config, s: Snapshot, compiled: bool)
    ensures Extractions(OnContentRuleListCompiled(cfg, s, compiled).calls) == Extractions(s.calls)
  {
    if compiled {
      ExtractionsAddOne(s.calls, AddContentRuleList);
      if cfg.contentRulesAdded.Some? {
        ExtractionsAddOne(s.calls + [AddContentRuleList], Load(cfg.contentRulesAdded.value));
        assert s.calls + [AddContentRuleList] + [Load(cfg.contentRulesAdded.value)]
            == OnContentRuleListCompiled(cfg, s, compiled).calls;
      } else {
        assert s.calls + [AddContentRuleList] == OnContentRuleListCompiled(cfg, s, compiled).calls;
      }
    }
  }

  /** Exactly the events `StartsExtraction` names call `evaluateJavaScript`, once each. */
  lemma StepExtractions(cfg: Config, s: Snapshot, e: Event)
    ensures Extractions(Step(cfg, s, e).calls)
         == Extractions(s.calls) + (if StartsExtraction(cfg, s, e) then 1 else 0)
  {
    var script := EvaluateJavaScript(ExtractionScript(cfg));
    match e
    case ScriptMessage(name) =>
      if StartsExtraction(cfg, s, e) {
        ExtractionsAddOne(s.calls, StopLoading);
        ExtractionsAddOne(s.calls + [StopLoading], script);
      }
    case NavigationFinished =>
      if StartsExtraction(cfg, s, e) {
        ExtractionsAddOne(s.calls, script);
      }
    case NavigationFailed(_) =>
      ExtractionsAddOne(s.calls, StopLoading);
    case ScriptEvaluated(_, _) =>
      ExtractionsAddOne(s.calls, StopLoading);
    case ContentRuleListCompiled(compiled) =>
      if s.compilePending {
        ContentRuleListCompiledExtractions(cfg, s, compiled);
      }
  }

  // ---------------------------------------------------------------------
  // The invariant

  /**
   * What holds in every reachable state: the counter is 0 or 1, at most one
   * extraction is ever started and at most one is in flight, the object is
   * attached exactly until something has been reported, and at most two
   * reports are made.
   */
  ghost predicate Inv(s: Snapshot) {
    && 0 <= s.allowFailures <= 1
    && s.pendingEvaluations <= 1
    && (s.pendingEvaluations == 1 ==> s.rendering)
    && s.delegateAttached == s.handlerAttached
    && (s.delegateAttached <==> s.completions == [])
    && Extractions(s.calls) <= 1
    && (s.delegateAttached && !s.rendering ==> s.allowFailures == 0 && Extractions(s.calls) == 0)
    && |s.completions| + s.pendingEvaluations <= 2
  }

  lemma InitInv(cfg: Config)
    ensures Inv(Init(cfg))
  {
    var s := Init(cfg);
    if s.calls != [] {
      assert s.calls[..0] == [];
    }
  }

  lemma StepInv(cfg: Config, s: Snapshot, e: Event)
    requires Inv(s)
    ensures Inv(Step(cfg, s, e))
  {
    StepExtractions(cfg, s, e);
  }

  lemma {:induction false} RunInv(cfg: Config, s: Snapshot, events: seq<Event>)
    requires Inv(s)
    ensures Inv(Run(cfg, s, events))
    decreases |events|
  {
    if events != [] {
      StepInv(cfg, s, events[0]);
      RunInv(cfg, Step(cfg, s, events[0]), events[1..]);
    }
  }

  /**
   * Over a whole conversion, whatever WebKit delivers and in whatever order:
   * the failure counter stays 0 or 1, `evaluateJavaScript` is called at most
   * once, and the caller's handler runs at most twice.
   */
  lemma ConversionBounds(cfg: Config, events: seq<Event>)
    ensures var s := Run(cfg, Init(cfg), events);
      && 0 <= s.allowFailures <= 1
      && Extractions(s.calls) <= 1
      && |s.completions| <= 2
  {
    InitInv(cfg);
    RunInv(cfg, Init(cfg), events);
  }

  // ---------------------------------------------------------------------
  // One event at a time

  /**
   * A script message changes nothing when its name is not
   * `readabilityJavascriptLoaded`, when an extraction is under way, or when
   * the conversion waits for `didFinish`.
   */
  lemma ScriptMessageIgnored(cfg: Config, s: Snapshot, name: string)
    requires name != MessageHandlerName || s.rendering || cfg.conversionTime == AtNavigationFinished
    ensures Step(cfg, s, ScriptMessage(name)) == s
  {
  }

  /**
   * Under `.atDocumentEnd` an accepted script message raises the counter by
   * one, stops loading once and then starts the extraction.
   */
  lemma ScriptMessageForcesExtraction(cfg: Config, s: Snapshot)
    requires s.handlerAttached && !s.rendering && cfg.conversionTime == AtDocumentEnd
    ensures var t := Step(cfg, s, ScriptMessage(MessageHandlerName));
      && t.allowFailures == s.allowFailures + 1
      && t.calls == s.calls + [StopLoading, EvaluateJavaScript(ExtractionScript(cfg))]
      && t.rendering && t.pendingEvaluations == s.pendingEvaluations + 1
      && t.completions == s.completions
  {
  }

  /**
   * An extraction starts only from an attached, idle state with nothing in
   * flight, and only on `didFinish` or an accepted script message.
   */
  lemma ExtractionStartsOnlyWhenIdle(cfg: Config, s: Snapshot, e: Event)
    requires Inv(s)
    requires Extractions(Step(cfg, s, e).calls) > Extractions(s.calls)
    ensures s.delegateAttached && !s.rendering && s.pendingEvaluations == 0
    ensures e.NavigationFinished? || (e.ScriptMessage? && cfg.conversionTime == AtDocumentEnd)
  {
    StepExtractions(cfg, s, e);
  }

  /**
   * `didFail` while failures are tolerated takes one off the counter and
   * reports nothing; otherwise the caller receives `(nil, error)`. Either
   * way the counter does not go below zero.
   */
  lemma NavigationFailureHandling(cfg: Config, s: Snapshot, error: Error)
    requires Inv(s) && s.delegateAttached
    ensures var t := Step(cfg, s, NavigationFailed(error));
      && (s.allowFailures > 0 ==> t == s.(allowFailures := s.allowFailures - 1))
      && (s.allowFailures == 0 ==> t.completions == s.completions + [Completion(None, Some(error))])
      && t.allowFailures >= 0
  {
  }

  /** `isRenderingReadabilityHTML` falls back to false only when a rendered page is delivered. */
  lemma RenderingClearedOnlyOnSuccess(cfg: Config, s: Snapshot, e: Event)
    requires s.rendering && !Step(cfg, s, e).rendering
    ensures e.ScriptEvaluated?
    ensures var t := Step(cfg, s, e);
      |t.completions| == |s.completions| + 1 && t.completions[|s.completions|].content.Some?
      && t.completions[|s.completions|].error.None?
  {
  }

  /**
   * The extraction result decides the report: an accepted article arrives as
   * the rendered template with no error; anything else arrives as an error
   * with no content, and the flag stays set.
   */
  lemma ScriptEvaluatedReports(cfg: Config, s: Snapshot, result: Option<string>, error: Option<Error>)
    requires s.pendingEvaluations > 0
    ensures var t := Step(cfg, s, ScriptEvaluated(result, error));
      match CheckScriptResult(result, error, cfg.parseJson)
      case Success(a) =>
        t.completions == s.completions + [Completion(Some(RenderHTML(cfg.assets, a.title, a.byline, a.content)), None)]
        && !t.rendering
      case Failure(e) =>
        t.completions == s.completions + [Completion(None, e)] && t.rendering == s.rendering
  {
  }

  /**
   * After the completion wrapper has run, no navigation event and no script
   * message changes anything: only callbacks WebKit already owes can arrive.
   */
  lemma NothingReachesDetachedObject(cfg: Config, s: Snapshot, e: Event)
    requires Inv(s) && s.completions != []
    requires e.ScriptMessage? || e.NavigationFinished? || e.NavigationFailed?
    ensures Step(cfg, s, e) == s
  {
  }

  /**
   * The code has no one-shot guard on the caller's handler: a navigation
   * failure that is not tolerated while the extraction script is running
   * reports an error, and the script's callback then reports a second time.
   */
  lemma SecondReportAfterUntoleratedFailure(cfg: Config, error: Error)
    ensures |Run(cfg, Init(cfg), [NavigationFinished, NavigationFailed(error), ScriptEvaluated(None, None)]).completions| == 2
  {
    var s0 := Init(cfg);
    var s1 := Step(cfg, s0, NavigationFinished);
    assert s1.delegateAttached && s1.pendingEvaluations == 1 && s1.allowFailures == 0 && s1.completions == [];
    var s2 := Step(cfg, s1, NavigationFailed(error));
    assert |s2.completions| == 1 && s2.pendingEvaluations == 1;
    var s3 := Step(cfg, s2, ScriptEvaluated(None, None));
    assert |s3.completions| == 2;
    RunThree(cfg, s0, NavigationFinished, NavigationFailed(error), ScriptEvaluated(None, None));
  }

  /** Running three events is stepping through them in order. */
  lemma RunThree(cfg: Config, s: Snapshot, e0: Event, e1: Event, e2: Event)
    ensures Run(cfg, s, [e0, e1, e2]) == Step(cfg, Step(cfg, Step(cfg, s, e0), e1), e2)
  {
    var s1 := Step(cfg, s, e0);
    var s2 := Step(cfg, s1, e1);
    assert [e0, e1, e2][1..] == [e1, e2] && [e1, e2][1..] == [e2] && [e2][1..] == [];
    assert Run(cfg, s2, [e2]) == Step(cfg, s2, e2);
    assert Run(cfg, s1, [e1, e2]) == Run(cfg, s2, [e2]);
  }

  /** A successful compilation adds the rules and then, if there is one, loads the page. */
  lemma CompiledRulesLoadPage(cfg: Config, s: Snapshot, source: PageSource)
    requires s.compilePending && cfg.contentRulesAdded == Some(source)
    ensures Step(cfg, s, ContentRuleListCompiled(true)).calls == s.calls + [AddContentRuleList, Load(source)]
    ensures Step(cfg, s, ContentRuleListCompiled(false)).calls == s.calls
  {
  }

  lemma {:induction false} RunWithoutCompilationNeverLoads(cfg: Config, s: Snapshot, events: seq<Event>)
    requires !s.compilePending && NoLoad(s.calls)
    ensures NoLoad(Run(cfg, s, events).calls)
    decreases |events|
  {
    if events != [] {
      StepWithoutCompilationNeverLoads(cfg, s, events[0]);
      RunWithoutCompilationNeverLoads(cfg, Step(cfg, s, events[0]), events[1..]);
    }
  }

  /** With no compilation pending, no single event requests a page load. */
  lemma StepWithoutCompilationNeverLoads(cfg: Config, s: Snapshot, e: Event)
    requires !s.compilePending && NoLoad(s.calls)
    ensures !Step(cfg, s, e).compilePending && NoLoad(Step(cfg, s, e).calls)
  {
    match e
    case ScriptMessage(name) =>
      if s.handlerAttached && name == MessageHandlerName && !s.rendering && cfg.conversionTime == AtDocumentEnd {
        var s' := s.(allowFailures := s.allowFailures + 1, calls := s.calls + [StopLoading]);
        assert NoLoad(s'.calls) by {
          forall i | 0 <= i < |s'.calls| ensures !s'.calls[i].Load? {
            if i < |s.calls| { assert s'.calls[i] == s.calls[i]; }
          }
        }
      }
    case _ =>
  }

  /**
   * With `.none`, `addContentRules` returns before compiling anything, so the
   * callback that loads the page is never called: whatever WebKit delivers,
   * no page load is requested.
   */
  lemma NoSuppressionNeverLoads(cfg: Config, events: seq<Event>)
    requires cfg.suppression == ContentRules.None
    ensures NoLoad(Run(cfg, Init(cfg), events).calls)
  {
    RunWithoutCompilationNeverLoads(cfg, Init(cfg), events);
  }

  // ---------------------------------------------------------------------
  // The objects

  /**
   * The `WKWebView` the conversion owns, with its configuration's content
   * controller and the rule-list store, as far as the conversion uses them.
   */
  class WebView {
    var navigationDelegate: Readability?
    var scriptMessageHandlers: set<string>
    var pendingCompilation: bool
    var pendingEvaluations: nat
    ghost var calls: seq<EngineCall>

    constructor ()
      ensures navigationDelegate == null && scriptMessageHandlers == {}
      ensures !pendingCompilation && pendingEvaluations == 0 && calls == []
    {
      navigationDelegate := null;
      scriptMessageHandlers := {};
      pendingCompilation := false;
      pendingEvaluations := 0;
      calls := [];
    }

    method StopLoading()
      modifies this
      ensures calls == old(calls) + [EngineCall.StopLoading]
      ensures navigationDelegate == old(navigationDelegate) && scriptMessageHandlers == old(scriptMessageHandlers)
      ensures pendingCompilation == old(pendingCompilation) && pendingEvaluations == old(pendingEvaluations)
    {
      calls := calls + [EngineCall.StopLoading];
    }

    /** Starts a script; WebKit owes a callback from now on. */
    method EvaluateJavaScript(script: string)
      modifies this
      ensures calls == old(calls) + [EngineCall.EvaluateJavaScript(script)]
      ensures pendingEvaluations == old(pendingEvaluations) + 1
      ensures navigationDelegate == old(navigationDelegate) && scriptMessageHandlers == old(scriptMessageHandlers)
      ensures pendingCompilation == old(pendingCompilation)
    {
      calls := calls + [EngineCall.EvaluateJavaScript(script)];
      pendingEvaluations := pendingEvaluations + 1;
    }

    /** WebKit hands a script result back and no longer owes that callback. */
    method EvaluationReturned()
      requires pendingEvaluations > 0
      modifies this
      ensures pendingEvaluations == old(pendingEvaluations) - 1
      ensures calls == old(calls)
      ensures navigationDelegate == old(navigationDelegate) && scriptMessageHandlers == old(scriptMessageHandlers)
      ensures pendingCompilation == old(pendingCompilation)
    {
      pendingEvaluations := pendingEvaluations - 1;
    }

    method CompileContentRuleList(resourceTypes: seq<string>)
      modifies this
      ensures calls == old(calls) + [EngineCall.CompileContentRuleList(resourceTypes)]
      ensures pendingCompilation
      ensures navigationDelegate == old(navigationDelegate) && scriptMessageHandlers == old(scriptMessageHandlers)
      ensures pendingEvaluations == old(pendingEvaluations)
    {
      calls := calls + [EngineCall.CompileContentRuleList(resourceTypes)];
      pendingCompilation := true;
    }

    /** The rule compiler calls back and owes nothing more. */
    method CompilationReturned()
      modifies this
      ensures !pendingCompilation
      ensures calls == old(calls)
      ensures navigationDelegate == old(navigationDelegate) && scriptMessageHandlers == old(scriptMessageHandlers)
      ensures pendingEvaluations == old(pendingEvaluations)
    {
      pendingCompilation := false;
    }

    method AddContentRuleList()
      modifies this
      ensures calls == old(calls) + [EngineCall.AddContentRuleList]
      ensures navigationDelegate == old(navigationDelegate) && scriptMessageHandlers == old(scriptMessageHandlers)
      ensures pendingCompilation == old(pendingCompilation) && pendingEvaluations == old(pendingEvaluations)
    {
      calls := calls + [EngineCall.AddContentRuleList];
    }

    method Load(source: PageSource)
      modifies this
      ensures calls == old(calls) + [EngineCall.Load(source)]
      ensures navigationDelegate == old(navigationDelegate) && scriptMessageHandlers == old(scriptMessageHandlers)
      ensures pendingCompilation == old(pendingCompilation) && pendingEvaluations == old(pendingEvaluations)
    {
      calls := calls + [EngineCall.Load(source)];
    }

    method AddScriptMessageHandler(name: string)
      modifies this
      ensures scriptMessageHandlers == old(scriptMessageHandlers) + {name}
      ensures calls == old(calls) && navigationDelegate == old(navigationDelegate)
      ensures pendingCompilation == old(pendingCompilation) && pendingEvaluations == old(pendingEvaluations)
    {
      scriptMessageHandlers := scriptMessageHandlers + {name};
    }

    method RemoveScriptMessageHandler(name: string)
      modifies this
      ensures scriptMessageHandlers == old(scriptMessageHandlers) - {name}
      ensures calls == old(calls) && navigationDelegate == old(navigationDelegate)
      ensures pendingCompilation == old(pendingCompilation) && pendingEvaluations == old(pendingEvaluations)
    {
      scriptMessageHandlers := scriptMessageHandlers - {name};
    }
  }

  /** The `Readability` object: one conversion, one web view. */
  class Readability {
    const webView: WebView
    const conversionTime: ConversionTime
    const suppressSubresourceLoadingDuringConversion: ContentRules.SuppressionType
    const meaningfulContentMinLength: int
    const assets: Assets
    const parseJson: string -> Option<JsonObject>
    const contentRulesAddedCallback: Option<PageSource>
    var isRenderingReadabilityHTML: bool
    var allowNavigationFailures: int
    /** What the caller's completion handler has been given so far. */
    ghost var completions: seq<Completion>

    function Cfg(): Config {
      Config(conversionTime, suppressSubresourceLoadingDuringConversion, meaningfulContentMinLength,
             assets, parseJson, contentRulesAddedCallback)
    }

    ghost function State(): Snapshot
      reads this, webView
    {
      Snapshot(isRenderingReadabilityHTML, allowNavigationFailures,
               webView.navigationDelegate == this, MessageHandlerName in webView.scriptMessageHandlers,
               webView.pendingCompilation, webView.pendingEvaluations, webView.calls, completions)
    }

    /**
     * `init`: a new web view, the minimum length defaulting to 250, the
     * content rules requested, and the object installed as navigation
     * delegate and message handler.
     */
    constructor (conversionTime: ConversionTime,
                 suppressSubresourceLoadingDuringConversion: ContentRules.SuppressionType,
                 meaningfulContentMinLength: Option<int>,
                 assets: Assets,
                 parseJson: string -> Option<JsonObject>,
                 contentRulesAddedCallback: Option<PageSource>)
      ensures fresh(webView)
      ensures this.conversionTime == conversionTime
      ensures this.suppressSubresourceLoadingDuringConversion == suppressSubresourceLoadingDuringConversion
      ensures this.meaningfulContentMinLength == meaningfulContentMinLength.GetOr(DefaultMeaningfulContentMinLength)
      ensures this.assets == assets && this.parseJson == parseJson
      ensures this.contentRulesAddedCallback == contentRulesAddedCallback
      ensures State() == Init(Cfg())
    {
      var wv := new WebView();
      this.webView := wv;
      this.conversionTime := conversionTime;
      this.suppressSubresourceLoadingDuringConversion := suppressSubresourceLoadingDuringConversion;
      this.meaningfulContentMinLength := meaningfulContentMinLength.GetOr(DefaultMeaningfulContentMinLength);
      this.assets := assets;
      this.parseJson := parseJson;
      this.contentRulesAddedCallback := contentRulesAddedCallback;
      isRenderingReadabilityHTML := false;
      allowNavigationFailures := 0;
      completions := [];
      new;
      AddContentRules();
      wv.navigationDelegate := this;
      wv.AddScriptMessageHandler(MessageHandlerName);
    }

    /** `addContentRules` up to the request to the rule compiler. */
    method AddContentRules()
      modifies webView
      ensures var types := ContentRules.BlockedResourceTypes(suppressSubresourceLoadingDuringConversion);
        && webView.calls == old(webView.calls) + (if types.Some? then [CompileContentRuleList(types.value)] else [])
        && webView.pendingCompilation == (old(webView.pendingCompilation) || types.Some?)
      ensures webView.navigationDelegate == old(webView.navigationDelegate)
      ensures webView.scriptMessageHandlers == old(webView.scriptMessageHandlers)
      ensures webView.pendingEvaluations == old(webView.pendingEvaluations)
    {
      if suppressSubresourceLoadingDuringConversion == ContentRules.None {
        return;
      }
      var resourceTypesToBlock := ["image", "media", "svg-document", "popup", "style-sheet", "font"];
      if suppressSubresourceLoadingDuringConversion == ContentRules.All {
        resourceTypesToBlock := resourceTypesToBlock + ["script"];
      }
      webView.CompileContentRuleList(resourceTypesToBlock);
    }

    /** The rule compiler's callback in `addContentRules`. */
    method ContentRuleListCompiled(compiled: bool)
      requires webView.pendingCompilation
      modifies webView
      ensures State() == OnContentRuleListCompiled(Cfg(), old(State()), compiled)
    {
      webView.CompilationReturned();
      if !compiled {
        return;
      }
      webView.AddContentRuleList();
      if contentRulesAddedCallback.Some? {
        webView.Load(contentRulesAddedCallback.value);
      }
    }

    /** The completion wrapper of `init`. */
    method CompletionHandler(content: Option<string>, error: Option<Error>)
      modifies this, webView
      ensures State() == Complete(old(State()), Completion(content, error))
    {
      webView.StopLoading();
      webView.RemoveScriptMessageHandler(MessageHandlerName);
      webView.navigationDelegate := null;
      completions := completions + [Completion(content, error)];
    }

    /** `initializeReadability` up to `evaluateJavaScript`. */
    method InitializeReadability()
      modifies webView
      ensures webView.calls == old(webView.calls) + [EvaluateJavaScript(ExtractionScript(Cfg()))]
      ensures webView.pendingEvaluations == old(webView.pendingEvaluations) + 1
      ensures webView.navigationDelegate == old(webView.navigationDelegate)
      ensures webView.scriptMessageHandlers == old(webView.scriptMessageHandlers)
      ensures webView.pendingCompilation == old(webView.pendingCompilation)
    {
      var readabilityInitializationJS := assets.initializationTemplate;
      readabilityInitializationJS := ReplaceAll(readabilityInitializationJS, "##MEANINGFUL_CONTENT_MIN_LENGTH##",
                                                DecimalString(meaningfulContentMinLength));
      webView.EvaluateJavaScript(readabilityInitializationJS);
    }

    /** `rawPageFinishedLoading` up to the point where it waits for the script. */
    method RawPageFinishedLoading()
      modifies this, webView
      ensures State() == StartExtraction(Cfg(), old(State()))
    {
      isRenderingReadabilityHTML := true;
      InitializeReadability();
    }

    /** The callbacks that run when the extraction script returns. */
    method ScriptEvaluated(result: Option<string>, error: Option<Error>)
      requires webView.pendingEvaluations > 0
      modifies this, webView
      ensures State() == OnScriptEvaluated(Cfg(), old(State()), result, error)
    {
      webView.EvaluationReturned();
      match CheckScriptResult(result, error, parseJson) {
        case Failure(parseError) =>
          CompletionHandler(None, parseError);
        case Success(article) =>
          var html := RenderHTML(assets, article.title, article.byline, article.content);
          isRenderingReadabilityHTML := false;
          CompletionHandler(Some(html), None);
      }
    }

    /** `userContentController(_:didReceive:)`. */
    method DidReceiveScriptMessage(name: string)
      modifies this, webView
      ensures State() == OnScriptMessage(Cfg(), old(State()), name)
    {
      if name != MessageHandlerName {
        return;
      }
      if isRenderingReadabilityHTML {
        return;
      }
      if conversionTime == AtDocumentEnd {
        allowNavigationFailures := allowNavigationFailures + 1;
        webView.StopLoading();
        RawPageFinishedLoading();
      }
    }

    /** `webView(_:didFinish:)`. */
    method DidFinishNavigation()
      modifies this, webView
      ensures State() == OnNavigationFinished(Cfg(), old(State()))
    {
      if !isRenderingReadabilityHTML {
        RawPageFinishedLoading();
      }
    }

    /** `webView(_:didFail:withError:)`. */
    method DidFailNavigation(error: Error)
      modifies this, webView
      ensures State() == OnNavigationFailed(old(State()), error)
    {
      if allowNavigationFailures > 0 {
        allowNavigationFailures := allowNavigationFailures - 1;
      } else {
        CompletionHandler(None, Some(error));
      }
    }
  }

  /**
   * WebKit delivering one event to a conversion: to its navigation delegate,
   * to the handler registered for the message, or to a callback it owes.
   */
  method Deliver(r: Readability, e: Event)
    modifies r, r.webView
    ensures r.State() == Step(r.Cfg(), old(r.State()), e)
  {
    match e {
      case ScriptMessage(name) =>
        if MessageHandlerName in r.webView.scriptMessageHandlers {
          r.DidReceiveScriptMessage(name);
        }
      case NavigationFinished =>
        if r.webView.navigationDelegate == r {
          r.DidFinishNavigation();
        }
      case NavigationFailed(error) =>
        if r.webView.navigationDelegate == r {
          r.DidFailNavigation(error);
        }
      case ScriptEvaluated(result, error) =>
        if r.webView.pendingEvaluations > 0 {
          r.ScriptEvaluated(result, error);
        }
      case ContentRuleListCompiled(compiled) =>
        if r.webView.pendingCompilation {
          r.ContentRuleListCompiled(compiled);
        }
    }
  }
}
