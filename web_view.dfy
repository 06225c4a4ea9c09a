/**
 * The `WebView` component (WebView.swift): the observable `WebViewState`, the
 * coordinator's navigation-delegate methods and policies, the script caller's
 * multi-target frame table, the navigator's initial load and the cache of
 * persistent engines (WebKit branch).
 *
 * The platform web view is reduced to the values `updatePageState` copies
 * (`PlatformView`); JavaScript evaluation is a function from target frame
 * to outcome.
 */
module View {
  import opened Wrappers
  import opened SkipWeb
  import opened Engine

  // ---------------------------------------------------------------------------
  // Page state
  // ---------------------------------------------------------------------------

  /** The fields of `WebViewState` that navigation events write, as one value. */
  datatype PageState = PageState(
    isLoading: bool,
    isProvisionallyNavigating: bool,
    pageURL: Option<Url>,
    estimatedProgress: Option<real>,
    pageTitle: Option<string>,
    pageHTML: Option<string>,
    error: Option<LoadError>,
    canGoBack: bool,
    canGoForward: bool,
    backList: seq<HistoryItem>,
    forwardList: seq<HistoryItem>
  )

  const InitialPageState: PageState := PageState(false, false, None, None, None, None, None, false, false, [], [])

  /** What the platform web view reports at the moment a delegate method runs. */
  datatype PlatformView = PlatformView(
    isLoading: bool,
    estimatedProgress: real,
    title: Option<string>,
    url: Option<Url>,
    canGoBack: bool,
    canGoForward: bool,
    backList: seq<HistoryItem>,
    forwardList: seq<HistoryItem>
  )

  /** The page state shows what the platform view reports, in every field `updatePageState` copies. */
  predicate MirrorsView(s: PageState, v: PlatformView) {
    && s.isLoading == v.isLoading
    && s.estimatedProgress == Some(v.estimatedProgress)
    && s.pageTitle == v.title
    && s.pageURL == v.url
    && s.canGoBack == v.canGoBack
    && s.canGoForward == v.canGoForward
    && s.backList == v.backList
    && s.forwardList == v.forwardList
  }

  /** `updatePageState(webView:)`: copies the platform view's values and leaves the coordinator's own flags. */
  function FromView(s: PageState, v: PlatformView): (r: PageState)
    ensures MirrorsView(r, v)
    ensures r.isProvisionallyNavigating == s.isProvisionallyNavigating && r.pageHTML == s.pageHTML && r.error == s.error
  {
    s.(isLoading := v.isLoading, estimatedProgress := Some(v.estimatedProgress), pageTitle := v.title,
       pageURL := v.url, canGoBack := v.canGoBack, canGoForward := v.canGoForward,
       backList := v.backList, forwardList := v.forwardList)
  }

  /**
   * After `didFinish`: no longer provisional, and every copied field, the
   * loading flag included, is the platform view's (the `false` set first is
   * overwritten).
   */
  function AfterFinish(s: PageState, v: PlatformView): (r: PageState)
    ensures MirrorsView(r, v) && !r.isProvisionallyNavigating
    ensures r.pageHTML == s.pageHTML && r.error == s.error
  {
    FromView(s.(isLoading := false, pageURL := v.url, isProvisionallyNavigating := false), v)
  }

  /** After `didCommit`: no longer provisional; the loading flag is the platform view's, not the `true` set first. */
  function AfterCommit(s: PageState, v: PlatformView): (r: PageState)
    ensures MirrorsView(r, v) && !r.isProvisionallyNavigating
    ensures r.pageHTML == s.pageHTML && r.error == s.error
  {
    FromView(s.(isLoading := true, isProvisionallyNavigating := false), v)
  }

  /** After `didStartProvisionalNavigation`: provisional with zero progress, set after the copy so they win over it. */
  function AfterStartProvisional(s: PageState, v: PlatformView): (r: PageState)
    ensures r.isProvisionallyNavigating && r.estimatedProgress == Some(0.0)
    ensures r.(estimatedProgress := Some(v.estimatedProgress)) == FromView(s, v).(isProvisionallyNavigating := true)
    ensures r.isLoading == v.isLoading && r.pageURL == v.url && r.pageHTML == s.pageHTML && r.error == s.error
  {
    FromView(s, v).(estimatedProgress := Some(0.0), isProvisionallyNavigating := true)
  }

  /** After `didFailProvisionalNavigation`: stopped, not provisional, the error recorded, nothing copied from the view. */
  function AfterFailProvisional(s: PageState, e: LoadError): (r: PageState)
    ensures !r.isLoading && !r.isProvisionallyNavigating && r.error == Some(e)
    ensures r.(isLoading := s.isLoading, isProvisionallyNavigating := s.isProvisionallyNavigating, error := s.error) == s
  {
    s.(isLoading := false, isProvisionallyNavigating := false, error := Some(e))
  }

  /** After `didFail`: the error recorded, not provisional, and the copied fields are the platform view's. */
  function AfterFail(s: PageState, v: PlatformView, e: LoadError): (r: PageState)
    ensures MirrorsView(r, v) && !r.isProvisionallyNavigating && r.error == Some(e)
    ensures r.pageHTML == s.pageHTML
  {
    FromView(s.(isLoading := false, isProvisionallyNavigating := false, error := Some(e)), v)
  }

  /** A main-frame response for a URL other than the page's resets page URL, HTML and error. */
  predicate ResponseResets(s: PageState, isForMainFrame: bool, responseURL: Option<Url>) {
    isForMainFrame && responseURL.Some? && s.pageURL != responseURL
  }

  function AfterResponse(s: PageState, isForMainFrame: bool, responseURL: Option<Url>): (r: PageState)
    ensures ResponseResets(s, isForMainFrame, responseURL) ==>
      r.pageURL == responseURL && r.pageHTML == None && r.error == None
      && r.(pageURL := s.pageURL, pageHTML := s.pageHTML, error := s.error) == s
    ensures !ResponseResets(s, isForMainFrame, responseURL) ==> r == s
  {
    if ResponseResets(s, isForMainFrame, responseURL) then s.(pageURL := responseURL, pageHTML := None, error := None) else s
  }

  /** After a navigation action is cancelled for a blocked host. */
  function AfterCancel(s: PageState): (r: PageState)
    ensures !r.isLoading && !r.isProvisionallyNavigating
    ensures r.(isLoading := s.isLoading, isProvisionallyNavigating := s.isProvisionallyNavigating) == s
  {
    s.(isProvisionallyNavigating := false, isLoading := false)
  }

  /** A response for the page already shown changes nothing, whatever came before. */
  lemma RepeatedResponseIsStable(s: PageState, isForMainFrame: bool, responseURL: Option<Url>)
    ensures AfterResponse(AfterResponse(s, isForMainFrame, responseURL), isForMainFrame, responseURL)
         == AfterResponse(s, isForMainFrame, responseURL)
  {
  }

  /** `WebViewState`: the observable page state, updated field by field. */
  class WebViewState {
    var isLoading: bool
    var isProvisionallyNavigating: bool
    var pageURL: Option<Url>
    var estimatedProgress: Option<real>
    var pageTitle: Option<string>
    var pageHTML: Option<string>
    var error: Option<LoadError>
    var canGoBack: bool
    var canGoForward: bool
    var backList: seq<HistoryItem>
    var forwardList: seq<HistoryItem>

    function Snapshot(): PageState
      reads this
    {
      PageState(isLoading, isProvisionallyNavigating, pageURL, estimatedProgress, pageTitle, pageHTML, error,
                canGoBack, canGoForward, backList, forwardList)
    }

    constructor ()
      ensures Snapshot() == InitialPageState
    {
      isLoading, isProvisionallyNavigating := false, false;
      pageURL, estimatedProgress, pageTitle, pageHTML, error := None, None, None, None, None;
      canGoBack, canGoForward := false, false;
      backList, forwardList := [], [];
    }
  }

  // ---------------------------------------------------------------------------
  // Blocked hosts
  // ---------------------------------------------------------------------------

  /** `s.contains(sub)` for strings: `sub` occurs somewhere in `s`. */
  predicate Contains(s: string, sub: string)
    ensures sub <= s ==> Contains(s, sub)
    ensures Contains(s, sub) ==> |sub| <= |s|
    decreases |s|
  {
    sub <= s || (s != [] && Contains(s[1..], sub))
  }

  /** The recursive substring test agrees with "some suffix starts with it". */
  lemma {:induction false} ContainsIffSomeSuffix(s: string, sub: string)
    ensures Contains(s, sub) <==> exists i :: 0 <= i <= |s| && sub <= s[i..]
    decreases |s|
  {
    if s == [] {
      assert forall i :: 0 <= i <= |s| ==> s[i..] == s;
    } else {
      ContainsIffSomeSuffix(s[1..], sub);
      if Contains(s, sub) {
        if sub <= s {
          assert sub <= s[0..];
        } else {
          var i :| 0 <= i <= |s[1..]| && sub <= s[1..][i..];
          assert s[1..][i..] == s[i + 1..];
          assert sub <= s[i + 1..];
        }
      }
      if exists i :: 0 <= i <= |s| && sub <= s[i..] {
        var i :| 0 <= i <= |s| && sub <= s[i..];
        if i == 0 {
          assert s[i..] == s;
        } else {
          assert s[i..] == s[1..][i - 1..];
          assert Contains(s[1..], sub);
        }
      }
    }
  }

  /** `blockedHosts.contains(where: { host.contains($0) })`. */
  predicate HostIsBlocked(host: string, blocked: set<string>) {
    exists b :: b in blocked && Contains(host, b)
  }

  datatype ActionPolicy = Allow | Cancel

  /** The navigation-action policy: cancel exactly when the request's host contains a blocked entry. */
  function NavigationActionPolicy(requestURL: Option<Url>, blockedHosts: Option<set<string>>): (p: ActionPolicy)
    ensures p == Cancel <==>
      requestURL.Some? && UrlHost(requestURL.value).Some? && blockedHosts.Some?
      && HostIsBlocked(UrlHost(requestURL.value).value, blockedHosts.value)
  {
    if requestURL.Some? && UrlHost(requestURL.value).Some? && blockedHosts.Some?
       && HostIsBlocked(UrlHost(requestURL.value).value, blockedHosts.value)
    then Cancel
    else Allow
  }

  /** `WebView` fixes its blocked hosts to the empty set, so every navigation is allowed. */
  lemma EmptyBlockListAllowsAll(requestURL: Option<Url>)
    ensures NavigationActionPolicy(requestURL, Some({})) == Allow
  {
  }

  /** A blocked entry blocks every host it occurs in: a host that merely has it as a suffix is blocked too. */
  lemma BlockedEntryMatchesInsideHost(prefix: string, entry: string)
    ensures HostIsBlocked(prefix + entry, {entry})
  {
    assert (prefix + entry)[|prefix|..] == entry;
    ContainsIffSomeSuffix(prefix + entry, entry);
  }

  // ---------------------------------------------------------------------------
  // The script caller and its multi-target frame table
  // ---------------------------------------------------------------------------

  /** An error JavaScript evaluation can throw; the invalid-frame-target code is singled out. */
  datatype EvalError = InvalidFrameTarget | OtherEvalError(code: int)

  /** What the platform's evaluation returns for one target frame. */
  datatype CallOutcome = Returned(value: Option<JsValue>) | Threw(error: EvalError)

  /** What the completion handler is called with. */
  datatype Completion = Succeeded(value: Option<JsValue>) | FailedWith(error: EvalError)

  /** The completion handler: it accepts its argument, or throws when handed a success. */
  datatype CompletionHandler = Accepting | ThrowingOnSuccess(error: EvalError)

  /** `addMultiTargetFrame`'s flag: false exactly when the key is present with the same request URL. */
  function InsertionFlag(frames: map<string, FrameInfo>, uuid: string, frame: FrameInfo): (inserted: bool)
    ensures !inserted <==> uuid in frames && frames[uuid].requestURL == frame.requestURL
  {
    !(uuid in frames && frames[uuid].requestURL == frame.requestURL)
  }

  /** Adding the same frame a second time reports it as not newly inserted and leaves the table as it was. */
  lemma AddFrameTwice(frames: map<string, FrameInfo>, uuid: string, frame: FrameInfo)
    ensures !InsertionFlag(frames[uuid := frame], uuid, frame)
    ensures frames[uuid := frame][uuid := frame] == frames[uuid := frame]
  {
  }

  /** The frames the duplicated script is sent to: every table frame other than the original target. */
  function RetargetKeys(frames: map<string, FrameInfo>, frame: Option<FrameInfo>): (r: set<string>)
    ensures r <= frames.Keys
    ensures forall k :: k in frames ==> (k in r <==> Some(frames[k]) != frame)
  {
    set k | k in frames && Some(frames[k]) != frame
  }

  /** The table after duplication: the frames whose evaluation threw an invalid-frame-target error are gone. */
  function Pruned(frames: map<string, FrameInfo>, frame: Option<FrameInfo>, engine: Option<FrameInfo> -> CallOutcome): (r: map<string, FrameInfo>)
    ensures r.Keys <= frames.Keys
    ensures forall k :: k in r ==> r[k] == frames[k]
    ensures forall k :: k in frames ==>
      (k !in r <==> k in RetargetKeys(frames, frame) && engine(Some(frames[k])) == Threw(InvalidFrameTarget))
  {
    map k | k in frames && !(k in RetargetKeys(frames, frame) && engine(Some(frames[k])) == Threw(InvalidFrameTarget)) :: frames[k]
  }

  /**
   * On WebKit the installed `asyncCaller` evaluates in the main frame
   * whatever target it is given, so once the first evaluation has returned,
   * none of the duplicated ones throws and the table is never pruned.
   */
  lemma FrameBlindEvaluatorNeverPrunes(frames: map<string, FrameInfo>, frame: Option<FrameInfo>, engine: Option<FrameInfo> -> CallOutcome)
    requires forall f :: engine(f) == engine(frame)
    requires engine(frame).Returned?
    ensures Pruned(frames, frame, engine) == frames
  {
  }

  /** Pruning is idempotent: a second duplicated evaluation with the same outcomes removes nothing more. */
  lemma PruneIsIdempotent(frames: map<string, FrameInfo>, frame: Option<FrameInfo>, engine: Option<FrameInfo> -> CallOutcome)
    ensures Pruned(Pruned(frames, frame, engine), frame, engine) == Pruned(frames, frame, engine)
  {
  }

  /** `WebViewScriptCaller`. The platform calls (`caller`, `asyncCaller`) are present or not; what they do is a parameter. */
  class WebViewScriptCaller {
    const uuid: string
    var hasCaller: bool
    var hasAsyncCaller: bool
    var multiTargetFrames: map<string, FrameInfo>

    constructor (uuid: string)
      ensures this.uuid == uuid && !hasCaller && !hasAsyncCaller && multiTargetFrames == map[]
    {
      this.uuid := uuid;
      hasCaller, hasAsyncCaller := false, false;
      multiTargetFrames := map[];
    }

    /** `evaluateJavaScript(_:completionHandler:)`: the script goes to the caller, or nowhere when none is set. */
    method EvaluateJavaScript(js: string) returns (forwarded: Option<string>)
      ensures forwarded.Some? <==> hasCaller
      ensures forwarded.Some? ==> forwarded.value == js
    {
      if !hasCaller { return None; }
      forwarded := Some(js);
    }

    /**
     * `evaluateJavaScript(_:arguments:frame:duplicateInMultiTargetFrames:in:completionHandler:)`.
     * `engine` gives the platform's outcome for each target frame. Returns
     * the completion handler's invocations and the keys of the table frames
     * the script was re-run on.
     */
    method EvaluateJavaScriptAsync(
      js: string, frame: Option<FrameInfo>, duplicate: bool,
      handler: Option<CompletionHandler>, engine: Option<FrameInfo> -> CallOutcome
    ) returns (completions: seq<Completion>, retargeted: set<string>)
      modifies this
      ensures hasCaller == old(hasCaller) && hasAsyncCaller == old(hasAsyncCaller)
      ensures !hasAsyncCaller ==> completions == [] && retargeted == {} && multiTargetFrames == old(multiTargetFrames)
      ensures hasAsyncCaller && engine(frame).Threw? ==>
        completions == (if handler.Some? then [FailedWith(engine(frame).error)] else [])
        && retargeted == {} && multiTargetFrames == old(multiTargetFrames)
      ensures hasAsyncCaller && engine(frame).Returned? && handler.Some? && handler.value.ThrowingOnSuccess? ==>
        completions == [Succeeded(engine(frame).value), FailedWith(handler.value.error)]
        && retargeted == {} && multiTargetFrames == old(multiTargetFrames)
      ensures hasAsyncCaller && engine(frame).Returned? && !(handler.Some? && handler.value.ThrowingOnSuccess?) ==>
        completions == (if handler.Some? then [Succeeded(engine(frame).value)] else [])
        && retargeted == (if duplicate then RetargetKeys(old(multiTargetFrames), frame) else {})
        && multiTargetFrames == (if duplicate then Pruned(old(multiTargetFrames), frame, engine) else old(multiTargetFrames))
    {
      completions, retargeted := [], {};
      if !hasAsyncCaller { return; }
      var result := engine(frame);
      if result.Threw? {
        if handler.Some? { completions := [FailedWith(result.error)]; }
        return;
      }
      if handler.Some? {
        completions := [Succeeded(result.value)];
        if handler.value.ThrowingOnSuccess? {
          // the handler's own error lands in the catch block and is reported to it
          completions := completions + [FailedWith(handler.value.error)];
          return;
        }
      }
      if duplicate {
        var table := multiTargetFrames;  // the loop runs over a copy
        var todo := table.Keys;
        while todo != {}
          invariant todo <= table.Keys
          invariant retargeted == RetargetKeys(table, frame) - todo
          invariant multiTargetFrames.Keys <= table.Keys
          invariant forall k :: k in multiTargetFrames ==> multiTargetFrames[k] == table[k]
          invariant forall k :: k in table && k !in todo ==>
            (k !in multiTargetFrames <==> k in RetargetKeys(table, frame) && engine(Some(table[k])) == Threw(InvalidFrameTarget))
          invariant forall k :: k in todo ==> k in multiTargetFrames
          invariant hasCaller == old(hasCaller) && hasAsyncCaller == old(hasAsyncCaller)
          decreases todo
        {
          var key :| key in todo;
          todo := todo - {key};
          var target := table[key];
          if Some(target) == frame { continue; }
          retargeted := retargeted + {key};
          var outcome := engine(Some(target));
          if outcome.Threw? && outcome.error == InvalidFrameTarget {
            multiTargetFrames := multiTargetFrames - {key};
          }
        }
        assert multiTargetFrames == Pruned(table, frame, engine);
      }
    }

    /** `addMultiTargetFrame(_:uuid:)`. */
    method AddMultiTargetFrame(frame: FrameInfo, uuid: string) returns (inserted: bool)
      modifies this
      ensures inserted == InsertionFlag(old(multiTargetFrames), uuid, frame)
      ensures multiTargetFrames == old(multiTargetFrames)[uuid := frame]
      ensures hasCaller == old(hasCaller) && hasAsyncCaller == old(hasAsyncCaller)
    {
      inserted := true;
      if uuid in multiTargetFrames && multiTargetFrames[uuid].requestURL == frame.requestURL {
        inserted := false;
      }
      multiTargetFrames := multiTargetFrames[uuid := frame];
    }

    /** `removeAllMultiTargetFrames()`. */
    method RemoveAllMultiTargetFrames()
      modifies this
      ensures multiTargetFrames == map[]
      ensures hasCaller == old(hasCaller) && hasAsyncCaller == old(hasAsyncCaller)
    {
      multiTargetFrames := map[];
    }
  }

  // ---------------------------------------------------------------------------
  // The navigator
  // ---------------------------------------------------------------------------

  /**
   * The load `WebViewNavigator.load(url:)` issues: on WebKit a file URL may
   * read its whole directory, on Android the URL's text is loaded.
   */
  function NavigatorLoadAction(platform: Platform, url: Url): (a: LoadAction)
    ensures platform == Apple && IsFileURL(url) ==> a == LoadFileURL(url, EnclosingDirectory)
    ensures platform == Apple && !IsFileURL(url) ==> a == LoadRequest(url)
    ensures platform == Android ==> a == LoadUrlString(url.text)
  {
    if platform == Android then LoadUrlString(url.text)
    else if IsFileURL(url) then LoadFileURL(url, EnclosingDirectory)
    else LoadRequest(url)
  }

  /** Only for file URLs do the navigator and the engine differ: the navigator grants the directory, the engine the file. */
  lemma NavigatorAndEngineLoads(platform: Platform, url: Url)
    ensures NavigatorLoadAction(platform, url) != EngineLoadAction(platform, url) <==>
      platform == Apple && IsFileURL(url)
  {
  }

  /** The loads an engine assignment requests: the initial URL if there is one, else the initial HTML, else nothing. */
  function InitialLoad(platform: Platform, initialURL: Option<Url>, initialHTML: Option<string>): (r: seq<LoadAction>)
    ensures |r| <= 1
    ensures |r| == 1 <==> initialURL.Some? || initialHTML.Some?
    ensures initialURL.Some? ==> r == [NavigatorLoadAction(platform, initialURL.value)]
    ensures initialURL.None? && initialHTML.Some? ==> r == [HtmlLoadAction(platform, initialHTML.value, None, "text/html")]
  {
    if initialURL.Some? then [NavigatorLoadAction(platform, initialURL.value)]
    else if initialHTML.Some? then [HtmlLoadAction(platform, initialHTML.value, None, "text/html")]
    else []
  }

  /** Whether an engine assignment goes through `loadHTML`, which refreshes the message handlers on WebKit. */
  predicate LoadsInitialHtml(platform: Platform, initialURL: Option<Url>, initialHTML: Option<string>) {
    platform == Apple && initialURL.None? && initialHTML.Some?
  }

  /** `WebViewNavigator`: holds the initial content and loads it whenever an engine is assigned. */
  class WebViewNavigator {
    var initialURL: Option<Url>
    var initialHTML: Option<string>
    var webEngine: WebEngine?
    /** The loads asked of the platform web view through this navigator, in order. */
    var requests: seq<LoadAction>

    constructor (initialURL: Option<Url>, initialHTML: Option<string>)
      ensures this.initialURL == initialURL && this.initialHTML == initialHTML
      ensures webEngine == null && requests == []
    {
      this.initialURL, this.initialHTML := initialURL, initialHTML;
      webEngine := null;
      requests := [];
    }

    /** `WebView.init`: only given initial content replaces the navigator's. */
    method AdoptInitialContent(url: Option<Url>, html: Option<string>)
      modifies this
      ensures initialURL == (if url.Some? then url else old(initialURL))
      ensures initialHTML == (if html.Some? then html else old(initialHTML))
      ensures webEngine == old(webEngine) && requests == old(requests)
    {
      if url.Some? { initialURL := url; }
      if html.Some? { initialHTML := html; }
    }

    /** `load(url:)`: nothing happens without an engine. */
    method Load(url: Url)
      modifies this
      ensures webEngine == old(webEngine) && initialURL == old(initialURL) && initialHTML == old(initialHTML)
      ensures requests == old(requests) + (if webEngine == null then [] else [NavigatorLoadAction(webEngine.platform, url)])
    {
      if webEngine == null { return; }
      requests := requests + [NavigatorLoadAction(webEngine.platform, url)];
    }

    /** `load(html:baseURL:mimeType:)`: forwarded to the engine's `loadHTML`, if there is an engine. */
    method LoadHtml(html: string, baseURL: Option<Url>, mimeType: string)
      modifies this, webEngine
      ensures webEngine == old(webEngine) && initialURL == old(initialURL) && initialHTML == old(initialHTML)
      ensures webEngine == null ==> requests == old(requests)
      ensures webEngine != null ==>
        && requests == old(requests) + [HtmlLoadAction(webEngine.platform, html, baseURL, mimeType)]
        && webEngine.controllerScripts == old(webEngine.controllerScripts) && webEngine.client == old(webEngine.client)
      ensures webEngine != null && webEngine.platform == Apple ==>
        && webEngine.registeredMessageHandlerNames == WantedHandlerNames(webEngine.configuration)
        && webEngine.controllerHandlers == RefreshedHandlers(old(webEngine.controllerHandlers),
             old(webEngine.registeredMessageHandlerNames), WantedHandlerNames(webEngine.configuration))
      ensures webEngine != null && webEngine.platform == Android ==>
        && webEngine.registeredMessageHandlerNames == old(webEngine.registeredMessageHandlerNames)
        && webEngine.controllerHandlers == old(webEngine.controllerHandlers)
    {
      if webEngine == null { return; }
      var action := webEngine.LoadHTML(html, baseURL, mimeType);
      requests := requests + [action];
    }

    /**
     * Assigning `webEngine`: its `didSet` runs on every assignment, including
     * one of the engine already held, and loads the initial URL if there is
     * one, else the initial HTML.
     */
    method SetWebEngine(e: WebEngine?)
      modifies this, e
      ensures webEngine == e && initialURL == old(initialURL) && initialHTML == old(initialHTML)
      ensures requests == old(requests) + (if e == null then [] else InitialLoad(e.platform, initialURL, initialHTML))
      ensures e != null ==> e.controllerScripts == old(e.controllerScripts) && e.client == old(e.client)
      ensures e != null && LoadsInitialHtml(e.platform, initialURL, initialHTML) ==>
        && e.registeredMessageHandlerNames == WantedHandlerNames(e.configuration)
        && e.controllerHandlers == RefreshedHandlers(old(e.controllerHandlers),
             old(e.registeredMessageHandlerNames), WantedHandlerNames(e.configuration))
      ensures e != null && !LoadsInitialHtml(e.platform, initialURL, initialHTML) ==>
        e.registeredMessageHandlerNames == old(e.registeredMessageHandlerNames) && e.controllerHandlers == old(e.controllerHandlers)
    {
      webEngine := e;
      if initialURL.Some? {
        Load(initialURL.value);
      } else if initialHTML.Some? {
        LoadHtml(initialHTML.value, None, "text/html");
      }
    }
  }

  // ---------------------------------------------------------------------------
  // Android message routing
  // ---------------------------------------------------------------------------

  /**
   * `MessageHandlerRouter.postMessage(_:body:)`, the JavaScript interface
   * Android pages post through: a configured handler gets the body as a
   * string, from a main frame whose request is `about:blank`; nothing else
   * happens for other names.
   */
  function RouteAndroidMessage(config: Configuration, frameId: nat, name: string, body: string, uuid: string): (d: Delivery)
    ensures d.Dispatched? <==> name in config.messageHandlers
    ensures !d.Dispatched? ==> d == Unhandled
    ensures d.Dispatched? ==>
      && d.handler == config.messageHandlers[name]
      && d.message == WebViewMessage(FrameInfo(frameId, true, Some(AboutBlank)), uuid, name, JsString(body))
  {
    if name in config.messageHandlers then
      Dispatched(config.messageHandlers[name], WebViewMessage(FrameInfo(frameId, true, Some(AboutBlank)), uuid, name, JsString(body)))
    else
      Unhandled
  }

  /**
   * Both platforms hand a string body posted from the same main frame to
   * the same handler, except under the console handler's name, which only
   * Android passes on.
   */
  lemma AndroidRoutingAgreesWithWebKit(config: Configuration, frameId: nat, name: string, body: string, uuid: string)
    ensures var frame := FrameInfo(frameId, true, Some(AboutBlank));
      name != ConsoleLogHandlerName ==>
        RouteAndroidMessage(config, frameId, name, body, uuid) == ReceiveMessage(config, ScriptMessage(name, JsString(body), frame), uuid)
    ensures name == ConsoleLogHandlerName && name in config.messageHandlers ==>
      RouteAndroidMessage(config, frameId, name, body, uuid).Dispatched?
      && !ReceiveMessage(config, ScriptMessage(name, JsString(body), FrameInfo(frameId, true, Some(AboutBlank))), uuid).Dispatched?
  {
  }

  // ---------------------------------------------------------------------------
  // The coordinator
  // ---------------------------------------------------------------------------

  datatype Notification = NavigationCommitted | NavigationFinished | NavigationFailed

  /** `WebViewCoordinator`: the web view's navigation delegate. */
  class WebViewCoordinator {
    const state: WebViewState
    const navigator: WebViewNavigator
    var scriptCaller: WebViewScriptCaller?
    const blockedHosts: Option<set<string>>
    const hasOnNavigationCommitted: bool
    const hasOnNavigationFinished: bool
    const hasOnNavigationFailed: bool
    /** The view's navigation callbacks invoked so far, in order. */
    var notifications: seq<Notification>

    constructor (
      state: WebViewState, navigator: WebViewNavigator, scriptCaller: WebViewScriptCaller?,
      blockedHosts: Option<set<string>>, onCommitted: bool, onFinished: bool, onFailed: bool)
      ensures this.state == state && this.navigator == navigator && this.scriptCaller == scriptCaller
      ensures this.blockedHosts == blockedHosts && notifications == []
      ensures hasOnNavigationCommitted == onCommitted && hasOnNavigationFinished == onFinished
      ensures hasOnNavigationFailed == onFailed
    {
      this.state, this.navigator, this.scriptCaller := state, navigator, scriptCaller;
      this.blockedHosts := blockedHosts;
      hasOnNavigationCommitted, hasOnNavigationFinished, hasOnNavigationFailed := onCommitted, onFinished, onFailed;
      notifications := [];
    }

    /** The frame table of the script caller, empty when there is no caller. */
    function Frames(): map<string, FrameInfo>
      reads this, scriptCaller
    {
      if scriptCaller == null then map[] else scriptCaller.multiTargetFrames
    }

    method UpdatePageState(view: PlatformView)
      modifies state
      ensures state.Snapshot() == FromView(old(state.Snapshot()), view)
    {
      state.isLoading := view.isLoading;
      state.estimatedProgress := Some(view.estimatedProgress);
      state.pageTitle := view.title;
      state.pageURL := view.url;
      state.canGoBack := view.canGoBack;
      state.canGoForward := view.canGoForward;
      state.backList := view.backList;
      state.forwardList := view.forwardList;
    }

    method ClearFrames()
      modifies scriptCaller
      ensures scriptCaller != null ==>
        && scriptCaller.multiTargetFrames == map[]
        && scriptCaller.hasCaller == old(scriptCaller.hasCaller)
        && scriptCaller.hasAsyncCaller == old(scriptCaller.hasAsyncCaller)
    {
      if scriptCaller != null { scriptCaller.RemoveAllMultiTargetFrames(); }
    }

    /** `openURL(url:newTab:)`, also used for pages that ask for a new window: the URL is loaded in this view. */
    method OpenURL(url: Url, newTab: bool)
      modifies navigator
      ensures navigator.webEngine == old(navigator.webEngine)
      ensures navigator.requests == old(navigator.requests)
        + (if navigator.webEngine == null then [] else [NavigatorLoadAction(navigator.webEngine.platform, url)])
    {
      navigator.Load(url);
    }

    /** `webView(_:didFinish:)`. */
    method DidFinish(view: PlatformView)
      modifies this, state
      ensures state.Snapshot() == AfterFinish(old(state.Snapshot()), view)
      ensures notifications == old(notifications) + (if hasOnNavigationFinished then [NavigationFinished] else [])
      ensures scriptCaller == old(scriptCaller)
    {
      state.isLoading := false;
      state.pageURL := view.url;
      state.isProvisionallyNavigating := false;
      UpdatePageState(view);
      if hasOnNavigationFinished { notifications := notifications + [NavigationFinished]; }
    }

    /** `webView(_:didFailProvisionalNavigation:withError:)`. */
    method DidFailProvisionalNavigation(error: LoadError)
      modifies this, state, scriptCaller
      ensures state.Snapshot() == AfterFailProvisional(old(state.Snapshot()), error)
      ensures scriptCaller == old(scriptCaller) && Frames() == map[]
      ensures notifications == old(notifications) + (if hasOnNavigationFailed then [NavigationFailed] else [])
    {
      ClearFrames();
      state.isLoading := false;
      state.isProvisionallyNavigating := false;
      state.error := Some(error);
      if hasOnNavigationFailed { notifications := notifications + [NavigationFailed]; }
    }

    /** `webView(_:didFail:withError:)`: no callback is invoked. */
    method DidFail(view: PlatformView, error: LoadError)
      modifies state, scriptCaller
      ensures state.Snapshot() == AfterFail(old(state.Snapshot()), view, error)
      ensures Frames() == map[]
    {
      ClearFrames();
      state.isLoading := false;
      state.isProvisionallyNavigating := false;
      state.error := Some(error);
      UpdatePageState(view);
    }

    /** `webView(_:didCommit:)`. */
    method DidCommit(view: PlatformView)
      modifies this, state, scriptCaller
      ensures state.Snapshot() == AfterCommit(old(state.Snapshot()), view)
      ensures scriptCaller == old(scriptCaller) && Frames() == map[]
      ensures notifications == old(notifications) + (if hasOnNavigationCommitted then [NavigationCommitted] else [])
    {
      ClearFrames();
      state.isLoading := true;
      state.isProvisionallyNavigating := false;
      UpdatePageState(view);
      if hasOnNavigationCommitted { notifications := notifications + [NavigationCommitted]; }
    }

    /** `webView(_:didStartProvisionalNavigation:)`: the frame table is kept. */
    method DidStartProvisionalNavigation(view: PlatformView)
      modifies state
      ensures state.Snapshot() == AfterStartProvisional(old(state.Snapshot()), view)
    {
      UpdatePageState(view);
      state.estimatedProgress := Some(0.0);
      state.isProvisionallyNavigating := true;
    }

    /** `webView(_:decidePolicyFor:preferences:)` for a navigation action. */
    method DecidePolicyForAction(requestURL: Option<Url>) returns (policy: ActionPolicy)
      modifies state
      ensures policy == NavigationActionPolicy(requestURL, blockedHosts)
      ensures state.Snapshot() == (if policy == Cancel then AfterCancel(old(state.Snapshot())) else old(state.Snapshot()))
    {
      if requestURL.Some? && UrlHost(requestURL.value).Some? && blockedHosts.Some? {
        var host := UrlHost(requestURL.value).value;
        if exists b :: b in blockedHosts.value && Contains(host, b) {
          state.isProvisionallyNavigating := false;
          state.isLoading := false;
          return Cancel;
        }
      }
      return Allow;
    }

    /** `webView(_:decidePolicyFor:)` for a navigation response: always allowed. */
    method DecidePolicyForResponse(isForMainFrame: bool, responseURL: Option<Url>) returns (allowed: bool)
      modifies state, scriptCaller
      ensures allowed
      ensures state.Snapshot() == AfterResponse(old(state.Snapshot()), isForMainFrame, responseURL)
      ensures ResponseResets(old(state.Snapshot()), isForMainFrame, responseURL) ==> Frames() == map[]
      ensures !ResponseResets(old(state.Snapshot()), isForMainFrame, responseURL) ==>
        scriptCaller == null || scriptCaller.multiTargetFrames == old(scriptCaller.multiTargetFrames)
    {
      if isForMainFrame && responseURL.Some? && state.pageURL != responseURL {
        ClearFrames();
        state.pageURL := responseURL;
        state.pageHTML := None;
        state.error := None;
      }
      return true;
    }
  }

  // ---------------------------------------------------------------------------
  // Creating the web view
  // ---------------------------------------------------------------------------

  /**
   * `setupWebView(_:)`: the navigator gets the engine (which triggers its
   * initial load); then WebKit installs the message handlers and user
   * scripts, and Android installs a new engine delegate wrapping the view's
   * client.
   */
  method SetupWebView(navigator: WebViewNavigator, e: WebEngine, delegateId: nat)
    modifies navigator, e
    ensures navigator.webEngine == e
    ensures navigator.initialURL == old(navigator.initialURL) && navigator.initialHTML == old(navigator.initialHTML)
    ensures navigator.requests == old(navigator.requests) + InitialLoad(e.platform, navigator.initialURL, navigator.initialHTML)
    ensures e.platform == Apple ==>
      && e.registeredMessageHandlerNames == WantedHandlerNames(e.configuration)
      && e.controllerHandlers == RefreshedHandlers(old(e.controllerHandlers), old(e.registeredMessageHandlerNames), WantedHandlerNames(e.configuration))
      && e.controllerScripts == UpdatedScripts(old(e.controllerScripts), e.TargetScripts())
      && e.client == old(e.client)
    ensures e.platform == Android ==>
      && e.registeredMessageHandlerNames == old(e.registeredMessageHandlerNames)
      && e.controllerHandlers == old(e.controllerHandlers) && e.controllerScripts == old(e.controllerScripts)
      && e.client == Some(EngineDelegateRef(delegateId))
  {
    navigator.SetWebEngine(e);
    if e.platform == Android {
      e.SetEngineDelegate(Some(EngineDelegateRef(delegateId)));
    } else {
      ghost var handlers := e.controllerHandlers;
      e.RefreshMessageHandlers();
      RefreshIsIdempotent(handlers, WantedHandlerNames(e.configuration));
      e.UpdateUserScripts();
    }
  }

  /** `WebView.engineCache`: engines kept per persistent web-view id. */
  class EngineCache {
    var engines: map<string, WebEngine>

    /** Only WebKit creates web views through the cache. */
    predicate AllWebKit()
      reads this, engines.Values
    {
      forall k :: k in engines ==> engines[k].platform == Apple
    }

    constructor ()
      ensures engines == map[] && AllWebKit()
    {
      engines := map[];
    }
  }

  /** Installing the scripts an engine wants on a web view that has none yields exactly those scripts. */
  lemma UpdateFromNothing(target: seq<PlatformScript>)
    ensures UpdatedScripts([], target) == target
  {
    if multiset(target) == multiset([]) {
      assert |target| == |multiset(target)| == 0;
    }
  }

  /**
   * `makeWebEngine(id:config:coordinator:)` (WebKit): an engine cached under
   * the id is reused after the coordinator's handler names are removed from
   * its controller; otherwise a new engine is made, set up, and cached
   * under the id.
   */
  method MakeWebEngine(cache: EngineCache, id: Option<string>, config: Configuration, navigator: WebViewNavigator)
    returns (e: WebEngine, created: bool)
    requires cache.AllWebKit()
    modifies cache, navigator, if id.Some? && id.value in cache.engines then {cache.engines[id.value]} else {}
    ensures created <==> !(id.Some? && id.value in old(cache.engines))
    ensures cache.AllWebKit() && e.platform == Apple
    ensures !created ==>
      && e == old(cache.engines)[id.value]
      && e.controllerHandlers == old(e.controllerHandlers) - config.messageHandlers.Keys
      && e.registeredMessageHandlerNames == old(e.registeredMessageHandlerNames)
      && e.controllerScripts == old(e.controllerScripts) && e.client == old(e.client)
      && cache.engines == old(cache.engines)
      && navigator.requests == old(navigator.requests) && navigator.webEngine == old(navigator.webEngine)
    ensures created ==>
      && fresh(e) && e.configuration == config && e.platform == Apple && e.client == None
      && e.registeredMessageHandlerNames == WantedHandlerNames(config)
      && e.controllerHandlers == WantedHandlerNames(config)
      && e.controllerScripts == e.TargetScripts()
      && cache.engines == (if id.Some? then old(cache.engines)[id.value := e] else old(cache.engines))
      && navigator.requests == old(navigator.requests) + InitialLoad(Apple, navigator.initialURL, navigator.initialHTML)
      && navigator.webEngine == e
    ensures navigator.initialURL == old(navigator.initialURL) && navigator.initialHTML == old(navigator.initialHTML)
  {
    if id.Some? && id.value in cache.engines {
      e := cache.engines[id.value];
      created := false;
      e.controllerHandlers := e.controllerHandlers - config.messageHandlers.Keys;
      return;
    }
    created := true;
    e := new WebEngine(config, Apple, None);
    SetupWebView(navigator, e, 0);
    UpdateFromNothing(e.TargetScripts());
    if id.Some? {
      cache.engines := cache.engines[id.value := e];
    }
  }

  /**
   * A reused engine's configured handlers stay removed: its registered names
   * still list them, so a later `refreshMessageHandlers` skips them.
   */
  lemma ReusedEngineKeepsHandlersRemoved(controller: set<string>, config: Configuration)
    ensures RefreshedHandlers(controller - config.messageHandlers.Keys, WantedHandlerNames(config), WantedHandlerNames(config))
            !! config.messageHandlers.Keys
  {
    RefreshIsIdempotent(controller - config.messageHandlers.Keys, WantedHandlerNames(config));
  }

  /** `WebViewScriptCaller`'s `caller` and `asyncCaller` are set, as `create(from:)` does. */
  method InstallCallers(coordinator: WebViewCoordinator, viewCaller: WebViewScriptCaller?)
    modifies coordinator, coordinator.scriptCaller, viewCaller
    ensures coordinator.scriptCaller == (if old(coordinator.scriptCaller) == null then viewCaller else old(coordinator.scriptCaller))
    ensures coordinator.scriptCaller != null ==> coordinator.scriptCaller.hasCaller && coordinator.scriptCaller.hasAsyncCaller
    ensures coordinator.notifications == old(coordinator.notifications)
  {
    if coordinator.scriptCaller == null {
      coordinator.scriptCaller := viewCaller;
    }
    if coordinator.scriptCaller != null {
      coordinator.scriptCaller.hasCaller := true;
      coordinator.scriptCaller.hasAsyncCaller := true;
    }
  }

  /**
   * `create(from:)` on WebKit, as written: `makeWebEngine` assigns the new
   * engine to the navigator during set-up, and `create` assigns it again,
   * so a new engine requests its initial content twice. The coordinator then
   * becomes the navigation delegate, which is not an engine delegate.
   */
  method Create(cache: EngineCache, id: Option<string>, config: Configuration, coordinator: WebViewCoordinator,
                viewCaller: WebViewScriptCaller?, coordinatorId: nat) returns (e: WebEngine)
    requires cache.AllWebKit()
    modifies cache, coordinator, coordinator.navigator, coordinator.scriptCaller, viewCaller
    modifies if id.Some? && id.value in cache.engines then {cache.engines[id.value]} else {}
    ensures coordinator.navigator.webEngine == e
    ensures coordinator.navigator.initialURL == old(coordinator.navigator.initialURL)
    ensures coordinator.navigator.initialHTML == old(coordinator.navigator.initialHTML)
    ensures e.client == Some(ForeignClient(coordinatorId)) && e.EngineDelegate() == None
    ensures var load := InitialLoad(Apple, coordinator.navigator.initialURL, coordinator.navigator.initialHTML);
      coordinator.navigator.requests == old(coordinator.navigator.requests) + load
        + (if id.Some? && id.value in old(cache.engines) then [] else load)
    ensures coordinator.scriptCaller == (if old(coordinator.scriptCaller) == null then viewCaller else old(coordinator.scriptCaller))
    ensures coordinator.scriptCaller != null ==> coordinator.scriptCaller.hasCaller && coordinator.scriptCaller.hasAsyncCaller
  {
    var navigator := coordinator.navigator;
    var created;
    e, created := MakeWebEngine(cache, id, config, navigator);
    navigator.SetWebEngine(e);
    e.client := Some(ForeignClient(coordinatorId));
    InstallCallers(coordinator, viewCaller);
  }

  /** `create(from:)` as intended: the navigator is assigned the engine once, so the initial content is requested once. */
  method CreateLoadingOnce(cache: EngineCache, id: Option<string>, config: Configuration, coordinator: WebViewCoordinator,
                           viewCaller: WebViewScriptCaller?, coordinatorId: nat) returns (e: WebEngine)
    requires cache.AllWebKit()
    modifies cache, coordinator, coordinator.navigator, coordinator.scriptCaller, viewCaller
    modifies if id.Some? && id.value in cache.engines then {cache.engines[id.value]} else {}
    ensures coordinator.navigator.webEngine == e
    ensures coordinator.navigator.initialURL == old(coordinator.navigator.initialURL)
    ensures coordinator.navigator.initialHTML == old(coordinator.navigator.initialHTML)
    ensures e.client == Some(ForeignClient(coordinatorId)) && e.EngineDelegate() == None
    ensures coordinator.navigator.requests == old(coordinator.navigator.requests)
      + InitialLoad(Apple, coordinator.navigator.initialURL, coordinator.navigator.initialHTML)
    ensures coordinator.scriptCaller == (if old(coordinator.scriptCaller) == null then viewCaller else old(coordinator.scriptCaller))
    ensures coordinator.scriptCaller != null ==> coordinator.scriptCaller.hasCaller && coordinator.scriptCaller.hasAsyncCaller
  {
    var navigator := coordinator.navigator;
    var created;
    e, created := MakeWebEngine(cache, id, config, navigator);
    if !created {
      navigator.SetWebEngine(e);
    }
    e.client := Some(ForeignClient(coordinatorId));
    InstallCallers(coordinator, viewCaller);
  }

  /**
   * A WebKit `WebView` with an initial URL and no persistent id, created as
   * written: its navigator requests the initial URL twice.
   */
  method CreateRequestsInitialURLTwice(url: Url, html: Option<string>, config: Configuration, coordinatorId: nat)
    returns (requests: seq<LoadAction>)
    ensures requests == [NavigatorLoadAction(Apple, url), NavigatorLoadAction(Apple, url)]
  {
    var cache := new EngineCache();
    var state := new WebViewState();
    var navigator := new WebViewNavigator(Some(url), html);
    var coordinator := new WebViewCoordinator(state, navigator, null, None, false, false, false);
    var e := Create(cache, None, config, coordinator, null, coordinatorId);
    assert InitialLoad(Apple, Some(url), html) == [NavigatorLoadAction(Apple, url)];
    requests := navigator.requests;
  }

  /** The Android view factory: a new engine is set up once, with an engine delegate wrapping the view's client. */
  method CreateAndroid(config: Configuration, navigator: WebViewNavigator, delegateId: nat) returns (e: WebEngine)
    modifies navigator
    ensures fresh(e) && e.platform == Android && e.configuration == config
    ensures navigator.webEngine == e
    ensures navigator.requests == old(navigator.requests) + InitialLoad(Android, navigator.initialURL, navigator.initialHTML)
    ensures e.client == Some(EngineDelegateRef(delegateId)) && e.EngineDelegate() == e.client
    ensures e.registeredMessageHandlerNames == {} && e.controllerHandlers == {} && e.controllerScripts == []
  {
    e := new WebEngine(config, Android, None);
    SetupWebView(navigator, e, delegateId);
  }
}
